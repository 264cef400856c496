/**
 * What the two listing plugins built on the JavDB item pattern
 * (plugins.v2/tvdbdiscover and plugins.v2/javdbdiscover) share: a match of
 * `<div class="item">…<a href="(url)">…<img … src="(image)">…<div
 * class="uid">(title)</div>`, the cover URL rule and the video id rule.
 */
module JavdbItems {
  import opened Py
  import opened UrlJoin

  /** The three capture groups of one match, in document order. */
  datatype ItemMatch = ItemMatch(url: string, image: string, title: string)

  /** `urljoin(base, image) if not image.startswith('http') else image`:
      None when `urljoin` raises. */
  function CoverUrl(image: string, other: string -> Option<string>): Option<string> {
    if StartsWith(image, "http") then Some(image) else JoinBase(image, other)
  }

  /** A source beginning with "http" is kept; any other path is resolved
      against the site root into an absolute https URL that resolves to itself again;
      and only a source outside both shapes can make the join raise. */
  lemma CoverUrlSpec(image: string, other: string -> Option<string>)
    ensures StartsWith(image, "http") ==> CoverUrl(image, other) == Some(image)
    ensures !StartsWith(image, "http") && PathReference(image) ==>
      CoverUrl(image, other).Some?
      && StartsWith(CoverUrl(image, other).value, Base)
      && AbsoluteReference(CoverUrl(image, other).value)
      && JoinBase(CoverUrl(image, other).value, other) == CoverUrl(image, other)
    ensures CoverUrl(image, other).None? ==> !Resolvable(image) && other(image).None?
  {
    if !StartsWith(image, "http") && PathReference(image) {
      ResolvedIsAbsolute(image);
      ResolveIdempotent(image);
    }
  }

  /** `url.split('/')[-1] if '/' in url else title` */
  function VideoId(m: ItemMatch): string {
    if '/' in m.url then LastPiece(m.url, '/') else m.title
  }

  /** With a '/' in the link, the id is the text after its last '/' (empty
      when the link ends with '/'); without one it is the title as
      captured, not stripped. */
  lemma VideoIdSpec(m: ItemMatch)
    ensures '/' in m.url ==>
      var id := VideoId(m);
      '/' !in id && |id| < |m.url| && m.url[|m.url| - |id| - 1] == '/'
      && m.url[|m.url| - |id|..] == id
    ensures '/' in m.url && m.url[|m.url| - 1] == '/' ==> VideoId(m) == ""
    ensures '/' !in m.url ==> VideoId(m) == m.title
  {
    if '/' in m.url {
      LastPieceSpec(m.url, '/');
    }
  }

  /** What a loop over the matches that stops at `count` and at the first
      match whose record raises has built: `outcomes[k]` is the record of
      match k, or None when building it raises. */
  function BuiltPrefix<R>(outcomes: seq<Option<R>>, count: int): seq<R> {
    if |outcomes| == 0 || count <= 0 || outcomes[0].None? then []
    else [outcomes[0].value] + BuiltPrefix(outcomes[1..], count - 1)
  }

  /** The records built are those of the first matches, in order; there are
      at most `count` of them; the loop stops short of both the end and
      `count` only at a match whose record raises; and when no record
      raises there are exactly min(len(matches), count) of them. */
  lemma {:induction false} BuiltPrefixSpec<R>(outcomes: seq<Option<R>>, count: int)
    ensures var built := BuiltPrefix(outcomes, count);
      |built| <= |outcomes| && (count <= 0 ==> built == []) && (count > 0 ==> |built| <= count)
      && (forall k | 0 <= k < |built| :: outcomes[k] == Some(built[k]))
      && (|built| < |outcomes| && |built| < count ==> outcomes[|built|].None?)
    ensures (forall k | 0 <= k < |outcomes| :: outcomes[k].Some?) ==>
      |BuiltPrefix(outcomes, count)| == (if count <= 0 then 0 else if |outcomes| < count then |outcomes| else count)
  {
    if |outcomes| > 0 && count > 0 && outcomes[0].Some? {
      var rest := outcomes[1..];
      BuiltPrefixSpec(rest, count - 1);
      var built := BuiltPrefix(outcomes, count);
      forall k | 0 <= k < |built|
        ensures outcomes[k] == Some(built[k])
      {
        if k > 0 {
          assert outcomes[k] == rest[k - 1];
        }
      }
      if (forall k | 0 <= k < |outcomes| :: outcomes[k].Some?) {
        assert forall k | 0 <= k < |rest| :: rest[k] == outcomes[k + 1];
      }
    }
  }

  /** One step of the loop at match `i`: it stops there at `count` or at a
      record that raises, and otherwise keeps that record. */
  lemma BuiltPrefixStep<R>(outcomes: seq<Option<R>>, i: int, count: int)
    requires 0 <= i < |outcomes|
    ensures i >= count || outcomes[i].None? ==> BuiltPrefix(outcomes[i..], count - i) == []
    ensures i < count && outcomes[i].Some? ==>
      BuiltPrefix(outcomes[i..], count - i) == [outcomes[i].value] + BuiltPrefix(outcomes[i + 1..], count - i - 1)
  {
    assert outcomes[i..][0] == outcomes[i];
    assert outcomes[i..][1..] == outcomes[i + 1..];
  }

  /** The outcome of building each match's record, in match order. */
  function Outcomes<R>(matches: seq<ItemMatch>, record: ItemMatch -> Option<R>): (r: seq<Option<R>>)
    ensures |r| == |matches|
    ensures forall k | 0 <= k < |matches| :: r[k] == record(matches[k])
  {
    if |matches| == 0 then [] else [record(matches[0])] + Outcomes(matches[1..], record)
  }

  /** The loop of `__parse_html`, the same in both plugins: over the
      enumerated matches it breaks at index `count`, and the first record
      that raises ends it (the handler around the loop keeps what was
      appended). */
  method BuildRecords<R>(matches: seq<ItemMatch>, count: int, record: ItemMatch -> Option<R>)
    returns (built: seq<R>)
    ensures built == BuiltPrefix(Outcomes(matches, record), count)
  {
    ghost var outcomes := Outcomes(matches, record);
    built := [];
    var i := 0;
    while i < |matches|
      invariant 0 <= i <= |matches|
      invariant BuiltPrefix(outcomes, count) == built + BuiltPrefix(outcomes[i..], count - i)
    {
      BuiltPrefixStep(outcomes, i, count);
      if i >= count {
        break;
      }
      var r := record(matches[i]);
      if r.None? {
        break;
      }
      built := built + [r.value];
      i := i + 1;
    }
  }

  /** Taking `[:count]` of what the loop built changes nothing. */
  lemma TruncateBuilt<R>(outcomes: seq<Option<R>>, count: int)
    ensures Slice(BuiltPrefix(outcomes, count), 0, count) == BuiltPrefix(outcomes, count)
  {
    var built := BuiltPrefix(outcomes, count);
    BuiltPrefixSpec(outcomes, count);
    PrefixSlice(built, count);
  }
}
