/**
 * The Python built-ins the plugins rely on, stated over Dafny values:
 * truthiness, `dict.get`, `str.startswith`, `str.strip`, `str.split` and
 * `str.join`, `str(int)`, and list slicing.
 */
module Py {

  datatype Option<T> = None | Some(value: T)

  /** The Python exceptions the modelled code raises, by class and the
      name or attribute involved. */
  datatype PyError = NameError(name: string) | AttributeError(attribute: string)

  /** How a Python call ends: it returns a value or raises. */
  datatype Outcome<T> = Returned(value: T) | Threw(error: PyError)

  /** A Python value as it appears in plugin configuration, filter parameters
      and the keyword arguments of a host record (floats are not modelled). */
  datatype Value = PyNone | PyBool(b: bool) | PyInt(i: int) | PyStr(s: string)

  /** Python truthiness (`if v:`): None, False, 0 and "" are false. */
  predicate Truthy(v: Value) {
    match v
    case PyNone => false
    case PyBool(b) => b
    case PyInt(i) => i != 0
    case PyStr(s) => s != ""
  }

  /** Python `a or b` on values: `a` when it is truthy, otherwise `b`. */
  function Or(a: Value, b: Value): Value {
    if Truthy(a) then a else b
  }

  /** `d.get(key, default)` */
  function Get<K, V>(d: map<K, V>, key: K, default: V): V {
    if key in d then d[key] else default
  }

  /** `s.startswith(prefix)` */
  predicate StartsWith(s: string, prefix: string) {
    |prefix| <= |s| && s[..|prefix|] == prefix
  }

  /** `sub` occurs in `s` starting at index `i`. */
  predicate OccursAt(s: string, sub: string, i: int) {
    0 <= i && i + |sub| <= |s| && s[i..i + |sub|] == sub
  }

  /** `sub in s` for strings */
  predicate Contains(s: string, sub: string) {
    exists i | 0 <= i <= |s| - |sub| :: OccursAt(s, sub, i)
  }

  /** `c.isspace()`: the characters CPython treats as whitespace. */
  predicate IsSpace(c: char) {
    ('\t' <= c <= '\r') || ('\U{1C}' <= c <= ' ') || c == '\U{85}' || c == '\U{A0}'
    || c == '\U{1680}' || ('\U{2000}' <= c <= '\U{200A}') || c == '\U{2028}'
    || c == '\U{2029}' || c == '\U{202F}' || c == '\U{205F}' || c == '\U{3000}'
  }

  /** The number of whitespace characters `s` begins with. */
  function LeadingSpace(s: string): (n: nat)
    ensures n <= |s|
  {
    if |s| > 0 && IsSpace(s[0]) then 1 + LeadingSpace(s[1..]) else 0
  }

  /** The number of whitespace characters `s` ends with. */
  function TrailingSpace(s: string): (n: nat)
    ensures n <= |s|
  {
    if |s| > 0 && IsSpace(s[|s| - 1]) then 1 + TrailingSpace(s[..|s| - 1]) else 0
  }

  /** The leading run is all whitespace and is followed by a non-space. */
  lemma {:induction false} LeadingSpaceSpec(s: string)
    ensures forall k | 0 <= k < LeadingSpace(s) :: IsSpace(s[k])
    ensures LeadingSpace(s) == |s| || !IsSpace(s[LeadingSpace(s)])
  {
    if |s| > 0 && IsSpace(s[0]) {
      LeadingSpaceSpec(s[1..]);
      forall k | 0 <= k < LeadingSpace(s)
        ensures IsSpace(s[k])
      {
        if k > 0 {
          assert s[k] == s[1..][k - 1];
        }
      }
    }
  }

  /** The trailing run is all whitespace and is preceded by a non-space. */
  lemma {:induction false} TrailingSpaceSpec(s: string)
    ensures forall k | |s| - TrailingSpace(s) <= k < |s| :: IsSpace(s[k])
    ensures TrailingSpace(s) == |s| || !IsSpace(s[|s| - TrailingSpace(s) - 1])
  {
    if |s| > 0 && IsSpace(s[|s| - 1]) {
      var t := s[..|s| - 1];
      TrailingSpaceSpec(t);
      forall k | |s| - TrailingSpace(s) <= k < |s|
        ensures IsSpace(s[k])
      {
        if k < |s| - 1 {
          assert s[k] == t[k];
        }
      }
    }
  }

  /** `s.lstrip()`: `s` without its leading whitespace. */
  function LStrip(s: string): string {
    s[LeadingSpace(s)..]
  }

  /** `s.rstrip()`: `s` without its trailing whitespace. */
  function RStrip(s: string): string {
    s[..|s| - TrailingSpace(s)]
  }

  /** `s.strip()` */
  function Strip(s: string): string {
    RStrip(LStrip(s))
  }

  /** `s.strip()` is the contiguous part of `s` between its leading and its
      trailing whitespace: it neither begins nor ends with whitespace, and
      everything cut away on either side is whitespace. */
  lemma StripSpec(s: string)
    ensures exists i, j | 0 <= i <= j <= |s| ::
      (Strip(s) == s[i..j]
       && (forall k | 0 <= k < i :: IsSpace(s[k]))
       && (forall k | j <= k < |s| :: IsSpace(s[k])))
    ensures Strip(s) == [] || (!IsSpace(Strip(s)[0]) && !IsSpace(Strip(s)[|Strip(s)| - 1]))
  {
    var l := LStrip(s);
    var r := RStrip(l);
    var i := LeadingSpace(s);
    var j := i + |r|;
    LeadingSpaceSpec(s);
    TrailingSpaceSpec(l);
    assert r == s[i..j];
    forall k | j <= k < |s|
      ensures IsSpace(s[k])
    {
      assert s[k] == l[k - i];
    }
    if r != [] {
      assert r[0] == l[0] == s[i];
      assert r[|r| - 1] == l[|r| - 1];
    }
  }

  /** Stripping twice strips nothing more. */
  lemma StripIdempotent(s: string)
    ensures Strip(Strip(s)) == Strip(s)
  {
    var t := Strip(s);
    StripSpec(s);
    if t != [] {
      assert LeadingSpace(t) == 0;
      assert LStrip(t) == t;
      assert TrailingSpace(t) == 0;
      assert RStrip(t) == t;
    }
  }

  /** `s.split(sep)`: the pieces of `s` between occurrences of `sep`; never
      empty, and `"".split(sep) == [""]`. */
  function Split(s: string, sep: char): (parts: seq<string>)
    ensures |parts| >= 1
    ensures forall k | 0 <= k < |parts| :: sep !in parts[k]
  {
    if |s| == 0 then [""]
    else
      var rest := Split(s[1..], sep);
      if s[0] == sep then [""] + rest else [[s[0]] + rest[0]] + rest[1..]
  }

  /** `sep.join(parts)` */
  function Join(parts: seq<string>, sep: char): string {
    if |parts| == 0 then ""
    else if |parts| == 1 then parts[0]
    else parts[0] + [sep] + Join(parts[1..], sep)
  }

  /** Joining the pieces of a split gives back the string. */
  lemma {:induction false} JoinSplit(s: string, sep: char)
    ensures Join(Split(s, sep), sep) == s
  {
    if |s| > 0 {
      var rest := Split(s[1..], sep);
      JoinSplit(s[1..], sep);
      if s[0] == sep {
        assert Join([""] + rest, sep) == "" + [sep] + Join(rest, sep);
        assert s == [s[0]] + s[1..];
      } else {
        var parts := [[s[0]] + rest[0]] + rest[1..];
        if |rest| == 1 {
          assert Join(parts, sep) == [s[0]] + rest[0];
        } else {
          assert parts[1..] == rest[1..];
          assert Join(parts, sep) == [s[0]] + rest[0] + [sep] + Join(rest[1..], sep);
          assert Join(rest, sep) == rest[0] + [sep] + Join(rest[1..], sep);
        }
        assert s == [s[0]] + s[1..];
      }
    }
  }

  /** Splitting a join of separator-free pieces gives back the pieces. */
  lemma {:induction false} SplitJoin(parts: seq<string>, sep: char)
    requires |parts| >= 1
    requires forall k | 0 <= k < |parts| :: sep !in parts[k]
    ensures Split(Join(parts, sep), sep) == parts
  {
    if |parts| == 1 {
      SplitNoSeparator(parts[0], sep);
    } else {
      SplitJoin(parts[1..], sep);
      SplitAfterPiece(parts[0], Join(parts[1..], sep), sep);
    }
  }

  /** A string without the separator splits into itself. */
  lemma {:induction false} SplitNoSeparator(s: string, sep: char)
    requires sep !in s
    ensures Split(s, sep) == [s]
  {
    if |s| > 0 {
      SplitNoSeparator(s[1..], sep);
      assert s == [s[0]] + s[1..];
    }
  }

  /** Splitting `piece + sep + rest`, where `piece` holds no separator. */
  lemma {:induction false} SplitAfterPiece(piece: string, rest: string, sep: char)
    requires sep !in piece
    ensures Split(piece + [sep] + rest, sep) == [piece] + Split(rest, sep)
  {
    if |piece| == 0 {
      assert piece + [sep] + rest == [sep] + rest;
      assert ([sep] + rest)[1..] == rest;
    } else {
      SplitAfterPiece(piece[1..], rest, sep);
      var s := piece + [sep] + rest;
      assert s[1..] == piece[1..] + [sep] + rest;
      assert piece == [piece[0]] + piece[1..];
    }
  }

  /** `s.split(sep)[-1]` */
  function LastPiece(s: string, sep: char): string {
    var parts := Split(s, sep);
    parts[|parts| - 1]
  }

  /** The last piece is what follows the last separator, or the whole
      string when it holds none. */
  lemma {:induction false} LastPieceSpec(s: string, sep: char)
    ensures sep !in LastPiece(s, sep)
    ensures sep !in s ==> LastPiece(s, sep) == s
    ensures sep in s ==>
      (|LastPiece(s, sep)| < |s|
       && s[|s| - |LastPiece(s, sep)| - 1] == sep
       && s[|s| - |LastPiece(s, sep)|..] == LastPiece(s, sep))
  {
    if sep !in s {
      SplitNoSeparator(s, sep);
    } else {
      var t := s[1..];
      LastPieceSpec(t, sep);
      var rest := Split(t, sep);
      if s[0] == sep {
        assert Split(s, sep) == [""] + rest;
      } else {
        assert Split(s, sep) == [[s[0]] + rest[0]] + rest[1..];
        assert sep in t by {
          var k :| 0 <= k < |s| && s[k] == sep;
          assert t[k - 1] == sep;
        }
        JoinSplit(t, sep);
      }
    }
  }

  /** The character of a decimal digit. */
  function DigitChar(d: nat): (c: char)
    requires d < 10
    ensures '0' <= c <= '9'
  {
    ('0' as int + d) as char
  }

  /** `str(n)` for a non-negative integer. */
  function NatToStr(n: nat): (r: string)
    ensures |r| >= 1 && forall k | 0 <= k < |r| :: '0' <= r[k] <= '9'
  {
    if n < 10 then [DigitChar(n)] else NatToStr(n / 10) + [DigitChar(n % 10)]
  }

  /** `str(i)` for an integer. */
  function IntToStr(i: int): string {
    if i < 0 then "-" + NatToStr(-i) else NatToStr(i)
  }

  /** The value of a string of decimal digits. */
  function DecimalValue(digits: string): nat
    requires forall k | 0 <= k < |digits| :: '0' <= digits[k] <= '9'
  {
    if |digits| == 0 then 0
    else 10 * DecimalValue(digits[..|digits| - 1]) + (digits[|digits| - 1] as int - '0' as int)
  }

  /** `str(n)` reads back as `n` and has no superfluous leading zero. */
  lemma {:induction false} NatToStrRoundTrip(n: nat)
    ensures DecimalValue(NatToStr(n)) == n
    ensures NatToStr(n)[0] == '0' ==> n == 0
  {
    var d := n % 10;
    assert DigitChar(d) as int - '0' as int == d;
    if n >= 10 {
      NatToStrRoundTrip(n / 10);
      var r := NatToStr(n);
      assert r[..|r| - 1] == NatToStr(n / 10);
      assert r[|r| - 1] == DigitChar(d);
      assert DecimalValue(r) == 10 * (n / 10) + d;
    }
  }

  /** `str(i)` holds a minus sign exactly when `i` is negative, followed by
      the decimal digits of its magnitude. */
  lemma IntToStrSpec(i: int)
    ensures i < 0 <==> StartsWith(IntToStr(i), "-")
    ensures i < 0 ==> IntToStr(i)[1..] == NatToStr(-i) && DecimalValue(NatToStr(-i)) == -i
    ensures i >= 0 ==> DecimalValue(IntToStr(i)) == i
  {
    var r := IntToStr(i);
    if i < 0 {
      NatToStrRoundTrip(-i);
      assert r == "-" + NatToStr(-i);
      assert r[..1] == "-";
      assert r[1..] == NatToStr(-i);
    } else {
      NatToStrRoundTrip(i);
      assert r == NatToStr(i);
      assert '0' <= r[0] <= '9';
      assert r[..1][0] == r[0];
    }
  }

  /** A base, a marker and `str(n)` for a positive `n`: the base is a
      proper prefix, and after it come the marker and decimal digits that
      read back as `n`. */
  lemma AppendNumber(base: string, marker: string, n: int)
    requires n > 0
    ensures var p := base + marker + IntToStr(n);
      StartsWith(p, base) && |p| > |base|
      && var q := p[|base|..];
      StartsWith(q, marker)
      && (forall k | |marker| <= k < |q| :: '0' <= q[k] <= '9')
      && DecimalValue(q[|marker|..]) == n
  {
    var digits := IntToStr(n);
    var p := base + marker + digits;
    var q := marker + digits;
    NatToStrRoundTrip(n);
    assert p[..|base|] == base;
    assert p[|base|..] == q;
    assert q[..|marker|] == marker;
    assert q[|marker|..] == digits;
    forall k | |marker| <= k < |q|
      ensures '0' <= q[k] <= '9'
    {
      assert q[k] == digits[k - |marker|];
    }
  }

  /** CPython's adjustment of one bound of a slice `s[lo:hi]` of a sequence
      of length `n`: a negative bound counts from the end, and the result is
      clamped to `0..n`. */
  function SliceBound(i: int, n: nat): (b: nat)
    ensures b <= n
  {
    if i < 0 then (if i + n < 0 then 0 else i + n) else if i > n then n else i
  }

  /** `s[lo:hi]` on a list */
  function Slice<T>(s: seq<T>, lo: int, hi: int): seq<T> {
    var a, b := SliceBound(lo, |s|), SliceBound(hi, |s|);
    if a < b then s[a..b] else []
  }

  /** Python's slicing rules, stated on `Slice` itself: a bound in
      `-len..-1` means the same as that bound plus `len`, a bound below
      `-len` means 0, a bound past the end means `len`, and a slice is never
      longer than the list and lists its elements in order. */
  lemma SliceRules<T>(s: seq<T>, lo: int, hi: int)
    ensures -|s| <= lo < 0 ==> Slice(s, lo, hi) == Slice(s, lo + |s|, hi)
    ensures -|s| <= hi < 0 ==> Slice(s, lo, hi) == Slice(s, lo, hi + |s|)
    ensures lo < -|s| ==> Slice(s, lo, hi) == Slice(s, 0, hi)
    ensures hi > |s| ==> Slice(s, lo, hi) == Slice(s, lo, |s|)
    ensures hi < -|s| ==> Slice(s, lo, hi) == []
    ensures lo > |s| ==> Slice(s, lo, hi) == []
    ensures 0 <= lo <= hi <= |s| ==> Slice(s, lo, hi) == s[lo..hi]
    ensures (0 <= hi <= lo || hi <= lo < 0) ==> Slice(s, lo, hi) == []
    ensures |Slice(s, lo, hi)| <= |s|
  {
  }

  /** With a page of at least 1 and a non-negative count, `s[start:start+count]`
      for `start = (page-1)*count` is the contiguous window of `s` beginning
      at `start`: order is kept, it holds at most `count` elements, and it is
      empty once `s` has no more than `start` elements. */
  lemma PageWindow<T>(s: seq<T>, page: int, count: int)
    requires page >= 1 && count >= 0
    ensures var start := (page - 1) * count;
      var r := Slice(s, start, start + count);
      |r| <= count
      && (|s| <= start ==> r == [])
      && (|s| > start ==> |r| == (if |s| < start + count then |s| - start else count))
      && (forall k | 0 <= k < |r| :: start + k < |s| && r[k] == s[start + k])
  {
    var start := (page - 1) * count;
    assert start >= 0 by {
      assert page - 1 >= 0;
    }
  }

  /** `s[:count]` for a non-negative count keeps the first `count` elements;
      for a negative count it drops the last `-count` elements. */
  lemma PrefixSlice<T>(s: seq<T>, count: int)
    ensures count >= 0 ==> Slice(s, 0, count) == s[..if count < |s| then count else |s|]
    ensures count < 0 ==> Slice(s, 0, count) == s[..if |s| + count < 0 then 0 else |s| + count]
  {
  }
}
