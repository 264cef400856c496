/**
 * Python's `urllib.parse.urljoin(base, ref)` for the one base the plugins
 * use, "https://javdb.com" (a scheme, a host and an empty path), and for the
 * references whose resolution is stated here: plain paths without dot
 * segments, and http(s) URLs with an ordinary host. Reference resolution
 * follows section 5.2 of RFC 3986 as Python implements it, including its
 * removal of empty interior segments from a relative path.
 */
module UrlJoin {
  import opened Py

  const Base: string := "https://javdb.com"
  const BaseHost: string := "javdb.com"

  /** No character at which `urlsplit` cuts off a query, a fragment or
      parameters, and none of the tab and line-break characters it deletes. */
  predicate PlainChars(r: string) {
    '?' !in r && '#' !in r && ';' !in r && '\t' !in r && '\n' !in r && '\r' !in r
  }

  /** No segment of the path is "." or "..". */
  predicate NoDotSegments(r: string) {
    var parts := Split(r, '/');
    "." !in parts && ".." !in parts
  }

  /** A reference that is a path only: no scheme (so no ':' at all), no
      authority (it does not begin with "//"), no leading control character
      or space, and no dot segment. */
  predicate PathReference(r: string) {
    PlainChars(r) && ':' !in r && !StartsWith(r, "//")
    && (r == [] || r[0] > ' ') && NoDotSegments(r)
  }

  /** The text after "http://" or "https://". */
  function AfterScheme(r: string): string
    requires StartsWith(r, "http://") || StartsWith(r, "https://")
  {
    if StartsWith(r, "https://") then r[8..] else r[7..]
  }

  /** An ASCII host name without IPv6 brackets. */
  predicate OrdinaryHost(host: string) {
    host != [] && forall k | 0 <= k < |host| :: host[k] < '\U{80}' && host[k] != '[' && host[k] != ']'
  }

  /** An absolute http or https URL whose host is ordinary. */
  predicate AbsoluteReference(r: string) {
    PlainChars(r) && (StartsWith(r, "http://") || StartsWith(r, "https://"))
    && OrdinaryHost(Split(AfterScheme(r), '/')[0])
  }

  /** The references this model resolves. */
  predicate Resolvable(r: string) {
    PathReference(r) || AbsoluteReference(r)
  }

  /** `urljoin("https://javdb.com", r)`, which may raise: computed here for
      the references this model resolves, and taken from `other` (None for
      a ValueError) for every other reference. */
  function JoinBase(r: string, other: string -> Option<string>): Option<string> {
    if Resolvable(r) then Some(Resolve(r)) else other(r)
  }

  /** The non-empty pieces, in order. */
  function NonEmpty(parts: seq<string>): (r: seq<string>)
    ensures |r| <= |parts|
  {
    if |parts| == 0 then []
    else if parts[0] == "" then NonEmpty(parts[1..])
    else [parts[0]] + NonEmpty(parts[1..])
  }

  /** Python's urljoin drops the empty segments of a relative path, except
      the last one (which keeps a trailing slash). */
  function DropEmptyInner(parts: seq<string>): seq<string>
    requires |parts| >= 1
  {
    NonEmpty(parts[..|parts| - 1]) + [parts[|parts| - 1]]
  }

  /** `urljoin("https://javdb.com", r)` */
  function Resolve(r: string): string
    requires Resolvable(r)
  {
    if AbsoluteReference(r) then r
    else if r == "" then Base
    else if r[0] == '/' then Base + r
    else Base + "/" + Join(DropEmptyInner(Split(r, '/')), '/')
  }

  /** Every piece of a split is made of characters of the string. */
  lemma {:induction false} SplitChars(s: string, sep: char, k: nat, c: char)
    requires k < |Split(s, sep)| && c in Split(s, sep)[k]
    ensures c in s
  {
    if |s| > 0 {
      var rest := Split(s[1..], sep);
      if s[0] == sep {
        if k > 0 {
          SplitChars(s[1..], sep, k - 1, c);
        }
      } else if k == 0 {
        if c != s[0] {
          assert c in rest[0];
          SplitChars(s[1..], sep, 0, c);
        }
      } else {
        SplitChars(s[1..], sep, k, c);
      }
    }
  }

  /** Every character of a join is the separator or a character of a piece. */
  lemma {:induction false} JoinChars(parts: seq<string>, sep: char, c: char)
    requires c in Join(parts, sep) && c != sep
    ensures exists k | 0 <= k < |parts| :: c in parts[k]
  {
    if |parts| > 1 {
      if c !in parts[0] {
        JoinChars(parts[1..], sep, c);
        var k :| 0 <= k < |parts| - 1 && c in parts[1..][k];
        assert c in parts[k + 1];
      }
    }
  }

  /** Every piece kept by NonEmpty is one of the pieces. */
  lemma {:induction false} NonEmptyPieces(parts: seq<string>, k: nat)
    requires k < |NonEmpty(parts)|
    ensures NonEmpty(parts)[k] in parts
  {
    if parts[0] == "" {
      NonEmptyPieces(parts[1..], k);
    } else if k > 0 {
      NonEmptyPieces(parts[1..], k - 1);
    }
  }

  /** NonEmpty keeps a list with no empty piece as it is. */
  lemma {:induction false} NonEmptyKeeps(parts: seq<string>)
    requires forall k | 0 <= k < |parts| :: parts[k] != ""
    ensures NonEmpty(parts) == parts
  {
    if |parts| > 0 {
      NonEmptyKeeps(parts[1..]);
    }
  }

  /** The resolved path of a relative reference holds only characters of the
      reference and slashes. */
  lemma RelativePathChars(r: string, c: char)
    requires r != [] && c != '/' && c in Join(DropEmptyInner(Split(r, '/')), '/')
    ensures c in r
  {
    var parts := Split(r, '/');
    var kept := DropEmptyInner(parts);
    JoinChars(kept, '/', c);
    var k :| 0 <= k < |kept| && c in kept[k];
    if k < |kept| - 1 {
      NonEmptyPieces(parts[..|parts| - 1], k);
      var p := kept[k];
      assert p in parts;
      var j :| 0 <= j < |parts| && parts[j] == p;
      SplitChars(r, '/', j, c);
    } else {
      SplitChars(r, '/', |parts| - 1, c);
    }
  }

  /** The first piece of `a + rest` is `a` when `a` holds no separator and
      `rest` is empty or begins with one. */
  lemma FirstPiece(a: string, rest: string, sep: char)
    requires sep !in a && (rest == [] || rest[0] == sep)
    ensures Split(a + rest, sep)[0] == a
  {
    if rest == [] {
      assert a + rest == a;
      SplitNoSeparator(a, sep);
    } else {
      assert rest == [sep] + rest[1..];
      assert a + rest == a + [sep] + rest[1..];
      SplitAfterPiece(a, rest[1..], sep);
    }
  }

  /** A path reference holds no ':', so it is never an absolute reference. */
  lemma PathIsNotAbsolute(r: string)
    requires PathReference(r)
    ensures !AbsoluteReference(r)
  {
    assert "http://"[4] == ':' && "https://"[5] == ':';
  }

  /** Appending a tail that begins with '/' and is made of '/' and
      characters of `r` keeps the prefix and adds only such characters. */
  lemma AppendedTail(b: string, t: string, r: string)
    requires t != [] && t[0] == '/'
    requires forall k | 0 <= k < |t| :: t[k] == '/' || t[k] in r
    ensures StartsWith(b + t, b) && (b + t)[|b|] == '/'
    ensures forall k | |b| <= k < |b + t| :: (b + t)[k] == '/' || (b + t)[k] in r
  {
    var u := b + t;
    assert u[..|b|] == b;
    forall k | |b| <= k < |u|
      ensures u[k] == '/' || u[k] in r
    {
      assert u[k] == t[k - |b|];
    }
  }

  /** The resolved path of a relative reference, after its leading '/', is
      made of '/' and characters of the reference. */
  lemma RelativeTailChars(r: string, t: string)
    requires r != [] && t == "/" + Join(DropEmptyInner(Split(r, '/')), '/')
    ensures forall k | 0 <= k < |t| :: t[k] == '/' || t[k] in r
  {
    var path := Join(DropEmptyInner(Split(r, '/')), '/');
    forall k | 0 <= k < |t|
      ensures t[k] == '/' || t[k] in r
    {
      if k > 0 {
        assert t[k] == path[k - 1];
        if t[k] != '/' {
          RelativePathChars(r, t[k]);
        }
      }
    }
  }

  /** Every character of `r` is '/' or a character of `r`. */
  lemma OwnChars(r: string)
    ensures forall k | 0 <= k < |r| :: r[k] == '/' || r[k] in r
  {
    forall k | 0 <= k < |r|
      ensures r[k] in r
    {
    }
  }

  /** What `Resolve` appends to the base: nothing, or a path beginning with
      '/' made of the reference's characters. */
  lemma BaseTail(r: string)
    requires PathReference(r)
    ensures var u := Resolve(r);
      StartsWith(u, Base) && (u == Base || u[|Base|] == '/')
      && forall k | |Base| <= k < |u| :: u[k] == '/' || u[k] in r
  {
    PathIsNotAbsolute(r);
    if r != [] && r[0] != '/' {
      var t := "/" + Join(DropEmptyInner(Split(r, '/')), '/');
      assert Resolve(r) == Base + t;
      RelativeTailChars(r, t);
      AppendedTail(Base, t, r);
    } else if r != [] {
      assert Resolve(r) == Base + r;
      OwnChars(r);
      AppendedTail(Base, r, r);
    }
  }

  /** Whatever the reference, the result is an absolute https or http URL
      with an ordinary host: for a path reference it is the base followed by
      the resolved path, on the host `javdb.com`, and an absolute reference
      is kept as it is. */
  lemma ResolvedIsAbsolute(r: string)
    requires Resolvable(r)
    ensures AbsoluteReference(Resolve(r))
    ensures StartsWith(Resolve(r), "http")
    ensures PathReference(r) ==> StartsWith(Resolve(r), Base)
    ensures PathReference(r) ==> Split(AfterScheme(Resolve(r)), '/')[0] == BaseHost
    ensures AbsoluteReference(r) ==> Resolve(r) == r
  {
    var u := Resolve(r);
    if !PathReference(r) {
      assert u == r;
      assert u[..4] == u[..7][..4] || u[..4] == u[..8][..4];
    } else {
      PathIsNotAbsolute(r);
      BaseTail(r);
      ResolvedHost(r);
      ResolvedPlain(r);
      BaseHostOrdinary();
      assert u[..4] == u[..8][..4];
    }
  }

  lemma BaseHostOrdinary()
    ensures OrdinaryHost(BaseHost)
  {
  }

  /** The host of a resolved path reference is the base's. */
  lemma ResolvedHost(r: string)
    requires PathReference(r)
    ensures StartsWith(Resolve(r), "https://")
    ensures Split(AfterScheme(Resolve(r)), '/')[0] == BaseHost
  {
    BaseTail(r);
    var u := Resolve(r);
    assert u[..8] == Base[..8];
    var tail := u[|Base|..];
    assert u == Base + tail;
    assert AfterScheme(u) == BaseHost + tail;
    FirstPiece(BaseHost, tail, '/');
  }

  /** A resolved path reference holds none of the characters PlainChars
      excludes, as neither the base nor the reference does. */
  lemma ResolvedPlain(r: string)
    requires PathReference(r)
    ensures PlainChars(Resolve(r))
  {
    BaseTail(r);
    var u := Resolve(r);
    forall k | 0 <= k < |u|
      ensures u[k] !in {'?', '#', ';', '\t', '\n', '\r'}
    {
      if k < |Base| {
        assert u[k] == Base[k];
      }
    }
  }

  /** Resolving a resolved URL changes nothing. */
  lemma ResolveIdempotent(r: string)
    requires Resolvable(r)
    ensures Resolvable(Resolve(r)) && Resolve(Resolve(r)) == Resolve(r)
  {
    ResolvedIsAbsolute(r);
  }

  /** An absolute path is appended to the base as it is. */
  lemma ResolveAbsolutePath(r: string)
    requires PathReference(r) && StartsWith(r, "/")
    ensures Resolve(r) == Base + r
  {
    assert r[0] == '/';
  }

  /** A relative path whose segments are all non-empty, except perhaps the
      last, is appended to the base after a single '/'. */
  lemma ResolveRelativePath(r: string)
    requires PathReference(r) && r != [] && r[0] != '/'
    requires forall k | 0 <= k < |Split(r, '/')| - 1 :: Split(r, '/')[k] != ""
    ensures Resolve(r) == Base + "/" + r
  {
    var parts := Split(r, '/');
    var n := |parts|;
    var inner := parts[..n - 1];
    forall k | 0 <= k < |inner|
      ensures inner[k] != ""
    {
      assert inner[k] == parts[k];
    }
    NonEmptyKeeps(inner);
    assert parts == inner + [parts[n - 1]];
    assert DropEmptyInner(parts) == parts;
    JoinSplit(r, '/');
    PathIsNotAbsolute(r);
  }
}
