/**
 * The year search `re.search(r'\b(19\d{2}|20\d{2})\b', title)` written out
 * over strings. In a str pattern Python's `\d` is any Unicode decimal digit
 * and `\w` any Unicode alphanumeric or `_` (so CJK characters are word
 * characters); both classes are taken as given.
 */
module Year {
  import opened Py

  /** The Unicode classes behind `\d` and `\w`. */
  datatype CharClasses = CharClasses(isDecimal: char -> bool, isWord: char -> bool)

  /** `\b` at position `k`: a word character on exactly one side, where the
      ends of the string count as non-word. */
  predicate WordBoundary(s: string, k: int, cc: CharClasses)
    requires 0 <= k <= |s|
  {
    (k > 0 && cc.isWord(s[k - 1])) != (k < |s| && cc.isWord(s[k]))
  }

  /** The pattern matches at index `i`: "19" or "20", two decimal digits,
      and a word boundary on both sides. */
  predicate YearAt(s: string, i: int, cc: CharClasses) {
    0 <= i && i + 4 <= |s|
    && ((s[i] == '1' && s[i + 1] == '9') || (s[i] == '2' && s[i + 1] == '0'))
    && cc.isDecimal(s[i + 2]) && cc.isDecimal(s[i + 3])
    && WordBoundary(s, i, cc) && WordBoundary(s, i + 4, cc)
  }

  /** The leftmost index at or after `from` where the pattern matches, as
      `re.search` scans start positions from left to right. */
  function FirstYearFrom(s: string, from: nat, cc: CharClasses): (r: Option<nat>)
    requires from <= |s|
    ensures r.Some? ==>
      (from <= r.value && YearAt(s, r.value, cc)
       && forall j | from <= j < r.value :: !YearAt(s, j, cc))
    ensures r.None? ==> forall j | from <= j <= |s| :: !YearAt(s, j, cc)
    decreases |s| - from
  {
    if YearAt(s, from, cc) then Some(from)
    else if from == |s| then None
    else FirstYearFrom(s, from + 1, cc)
  }

  /** `year_match.group(1) if year_match else None` */
  function SearchYear(s: string, cc: CharClasses): Option<string> {
    match FirstYearFrom(s, 0, cc)
    case Some(i) => Some(s[i..i + 4])
    case None => None
  }

  /** A year is found exactly when some position matches, and it is the
      four characters at the leftmost matching position; in particular a
      returned year occurs in the title. */
  lemma SearchYearSpec(s: string, cc: CharClasses)
    ensures SearchYear(s, cc).None? <==> forall j | 0 <= j <= |s| :: !YearAt(s, j, cc)
    ensures SearchYear(s, cc).Some? ==> exists i | 0 <= i <= |s| - 4 ::
      (YearAt(s, i, cc) && SearchYear(s, cc).value == s[i..i + 4]
       && OccursAt(s, SearchYear(s, cc).value, i)
       && forall j | 0 <= j < i :: !YearAt(s, j, cc))
  {
    match FirstYearFrom(s, 0, cc)
    case Some(i) =>
      assert YearAt(s, i, cc);
    case None =>
  }
}
