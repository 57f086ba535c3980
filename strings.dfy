// Text helpers the cost estimator relies on: Python's `str.split(sep)` (used to
// take the size key out of a warehouse size label and the short tier name out of
// a tier label) and the decimal rendering of a count (used in warehouse ids).

module Strings {

  datatype Option<T> = None | Some(value: T)

  /** `sep` occurs in `s` starting at index `i`. */
  predicate OccursAt(s: string, sep: string, i: nat)
  {
    i + |sep| <= |s| && s[i..i + |sep|] == sep
  }

  /** The index of the leftmost occurrence of `sep` in `s`, if there is one. */
  function Find(s: string, sep: string): (r: Option<nat>)
    requires |sep| > 0
    ensures r.Some? ==> OccursAt(s, sep, r.value)
    ensures r.Some? ==> forall j :: 0 <= j < r.value ==> !OccursAt(s, sep, j)
    ensures r.None? ==> forall j :: 0 <= j <= |s| ==> !OccursAt(s, sep, j)
    decreases |s|
  {
    if |s| < |sep| then None
    else if s[..|sep|] == sep then Some(0)
    else
      var rest := Find(s[1..], sep);
      ShiftOccurrence(s, sep);
      assert !OccursAt(s, sep, 0);
      match rest
      case None => None
      case Some(k) => Some(k + 1)
  }

  /** An occurrence in `s[1..]` at `j - 1` is an occurrence in `s` at `j`. */
  lemma ShiftOccurrence(s: string, sep: string)
    requires |s| > 0
    ensures forall j :: 1 <= j <= |s| ==> (OccursAt(s[1..], sep, j - 1) <==> OccursAt(s, sep, j))
  {
    forall j | 1 <= j <= |s|
      ensures OccursAt(s[1..], sep, j - 1) <==> OccursAt(s, sep, j)
    {
      if j + |sep| <= |s| {
        assert s[1..][j - 1..j - 1 + |sep|] == s[j..j + |sep|];
      }
    }
  }

  /** Python's `s.split(sep)` for a non-empty separator: the pieces between the
      non-overlapping occurrences of `sep`, scanning from the left. */
  function Split(s: string, sep: string): (parts: seq<string>)
    requires |sep| > 0
    ensures |parts| >= 1
    decreases |s|
  {
    match Find(s, sep)
    case None => [s]
    case Some(i) => [s[..i]] + Split(s[i + |sep|..], sep)
  }

  /** Python's `sep.join(parts)`. */
  function Join(parts: seq<string>, sep: string): string
    requires |parts| >= 1
  {
    if |parts| == 1 then parts[0] else parts[0] + sep + Join(parts[1..], sep)
  }

  /** Splitting loses nothing: joining the pieces with the separator gives back the text. */
  lemma {:induction false} JoinSplit(s: string, sep: string)
    requires |sep| > 0
    ensures Join(Split(s, sep), sep) == s
    decreases |s|
  {
    match Find(s, sep)
    case None =>
    case Some(i) =>
      var rest := s[i + |sep|..];
      var tail := Split(rest, sep);
      JoinSplit(rest, sep);
      var parts := [s[..i]] + tail;
      assert Split(s, sep) == parts;
      assert parts[1..] == tail;
      assert Join(parts, sep) == s[..i] + sep + Join(tail, sep);
      assert s == s[..i] + sep + rest by {
        assert s[i..i + |sep|] == sep;
        assert s == s[..i] + s[i..i + |sep|] + s[i + |sep|..];
      }
  }

  /** The first piece of `s.split(sep)`, i.e. `s.split(sep)[0]`: the text before the
      first separator (no separator starts inside it, one starts right after it),
      or the whole text when there is none. */
  function PrefixBefore(s: string, sep: string): (p: string)
    requires |sep| > 0
    ensures p <= s
    ensures forall j :: 0 <= j < |p| ==> !OccursAt(s, sep, j)
    ensures forall j :: 0 <= j <= |p| ==> !OccursAt(p, sep, j)
    ensures |p| < |s| ==> OccursAt(s, sep, |p|)
    ensures (forall j :: 0 <= j <= |s| ==> !OccursAt(s, sep, j)) ==> p == s
  {
    var parts := Split(s, sep);
    match Find(s, sep)
    case None => parts[0]
    case Some(i) =>
      assert parts[0] == s[..i];
      PrefixHasNoSeparator(s, sep, i);
      parts[0]
  }

  /** Cutting `s` before its first occurrence of `sep` leaves no occurrence. */
  lemma PrefixHasNoSeparator(s: string, sep: string, i: nat)
    requires |sep| > 0 && i <= |s|
    requires forall j :: 0 <= j < i ==> !OccursAt(s, sep, j)
    ensures forall j :: 0 <= j <= i ==> !OccursAt(s[..i], sep, j)
  {
    forall j | 0 <= j <= i
      ensures !OccursAt(s[..i], sep, j)
    {
      if OccursAt(s[..i], sep, j) {
        assert s[..i][j..j + |sep|] == s[j..j + |sep|];
        assert OccursAt(s, sep, j);
      }
    }
  }

  /** The character of a decimal digit. */
  function DigitChar(d: nat): (c: char)
    requires d < 10
    ensures '0' <= c <= '9'
  {
    ('0' as int + d) as char
  }

  /** Python's `str(n)` for a natural number, as in the f-string `f"warehouse_{n}"`. */
  function DecimalString(n: nat): (s: string)
    ensures |s| >= 1
    ensures forall k :: 0 <= k < |s| ==> '0' <= s[k] <= '9'
  {
    if n < 10 then [DigitChar(n)] else DecimalString(n / 10) + [DigitChar(n % 10)]
  }

  /** Reads a string of decimal digits back as a number. */
  function DecimalValue(s: string): nat
    requires forall k :: 0 <= k < |s| ==> '0' <= s[k] <= '9'
  {
    if s == [] then 0
    else DecimalValue(s[..|s| - 1]) * 10 + (s[|s| - 1] as int - '0' as int)
  }

  /** Rendering a number in decimal and reading it back gives the number. */
  lemma {:induction false} DecimalRoundTrip(n: nat)
    ensures DecimalValue(DecimalString(n)) == n
  {
    var s := DecimalString(n);
    if n >= 10 {
      DecimalRoundTrip(n / 10);
      assert s[..|s| - 1] == DecimalString(n / 10);
    }
  }

  /** Different numbers render differently. */
  lemma DecimalInjective(m: nat, n: nat)
    requires DecimalString(m) == DecimalString(n)
    ensures m == n
  {
    DecimalRoundTrip(m);
    DecimalRoundTrip(n);
  }
}
