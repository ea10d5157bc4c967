/**
 * The handful of Python `str` operations the documentation transformer relies on:
 * `str.isspace`, `str.strip`, `str.split(sep, 1)[0]`, `sep.join(parts)` and `str(int)`.
 * Strings are sequences of Unicode scalar values: Python's code points, except
 * lone surrogates, which a Dafny `char` cannot hold.
 */
module Text {

  /** Python's `str.isspace()` for one code point: the characters `str.strip()` removes. */
  predicate IsSpace(c: char) {
    || c == ' ' || c == '\t' || c == '\n' || c == '\r' || c == '\U{000B}' || c == '\U{000C}'
    || ('\U{001C}' <= c <= '\U{001F}')
    || c == '\U{0085}' || c == '\U{00A0}' || c == '\U{1680}'
    || ('\U{2000}' <= c <= '\U{200A}')
    || c == '\U{2028}' || c == '\U{2029}' || c == '\U{202F}' || c == '\U{205F}' || c == '\U{3000}'
  }

  /** The number of whitespace characters at the start of `s`. */
  function LeadingSpace(s: string): (n: nat)
    ensures n <= |s|
    ensures forall i :: 0 <= i < n ==> IsSpace(s[i])
    ensures n < |s| ==> !IsSpace(s[n])
  {
    if s == [] || !IsSpace(s[0]) then 0 else 1 + LeadingSpace(s[1..])
  }

  /** The number of whitespace characters at the end of `s`. */
  function TrailingSpace(s: string): (n: nat)
    ensures n <= |s|
    ensures forall i :: |s| - n <= i < |s| ==> IsSpace(s[i])
    ensures n < |s| ==> !IsSpace(s[|s| - 1 - n])
  {
    if s == [] || !IsSpace(s[|s| - 1]) then 0 else 1 + TrailingSpace(s[..|s| - 1])
  }

  /**
   * Python's `s.strip()`: the slice of `s` left after removing the longest
   * whitespace prefix and suffix. The result is empty or starts and ends with
   * a non-whitespace character, and everything removed is whitespace.
   */
  function Strip(s: string): (r: string)
    ensures LeadingSpace(s) + |r| <= |s|
    ensures r == s[LeadingSpace(s)..LeadingSpace(s) + |r|]
    ensures forall i :: 0 <= i < LeadingSpace(s) ==> IsSpace(s[i])
    ensures forall i :: LeadingSpace(s) + |r| <= i < |s| ==> IsSpace(s[i])
    ensures r == [] || (!IsSpace(r[0]) && !IsSpace(r[|r| - 1]))
  {
    var t := s[LeadingSpace(s)..];
    t[..|t| - TrailingSpace(t)]
  }

  /** `t` occurs in `s` starting at index `i`. */
  predicate OccursAt(s: string, t: string, i: int) {
    0 <= i && i + |t| <= |s| && s[i..i + |t|] == t
  }

  /** Python's `t in s` for strings. */
  ghost predicate Contains(s: string, t: string) {
    exists i :: OccursAt(s, t, i)
  }

  /** A slice of a string in which `t` does not occur does not contain `t` either. */
  lemma NoOccurrenceInSlice(s: string, t: string, lo: nat, hi: nat)
    requires lo <= hi <= |s|
    requires !Contains(s, t)
    ensures !Contains(s[lo..hi], t)
  {
    forall j | OccursAt(s[lo..hi], t, j) ensures OccursAt(s, t, lo + j) {
      var u := s[lo..hi];
      assert u[j..j + |t|] == t;
      assert forall k :: 0 <= k < |t| ==> t[k] == u[j + k] == s[lo + j + k];
      assert s[lo + j..lo + j + |t|] == t;
    }
  }

  /** The first index at or after `from` where `t` occurs in `s`, or -1. */
  function FindFrom(s: string, t: string, from: nat): (i: int)
    requires from <= |s|
    ensures i == -1 || (from <= i && OccursAt(s, t, i))
    ensures forall j :: from <= j && (i == -1 || j < i) ==> !OccursAt(s, t, j)
    decreases |s| - from
  {
    if OccursAt(s, t, from) then from
    else if from == |s| then -1
    else FindFrom(s, t, from + 1)
  }

  /** Python's `s.find(t)`: the first index where `t` occurs in `s`, or -1. */
  function Find(s: string, t: string): (i: int)
    ensures i == -1 <==> !Contains(s, t)
    ensures i != -1 ==> OccursAt(s, t, i)
    ensures forall j :: 0 <= j && (i == -1 || j < i) ==> !OccursAt(s, t, j)
  {
    var i := FindFrom(s, t, 0);
    if i == -1 then
      assert forall j :: 0 <= j ==> !OccursAt(s, t, j);
      i
    else i
  }

  /**
   * Python's `s.split(sep, 1)[0]`: the text of `s` before the first occurrence
   * of `sep`, or all of `s` when `sep` does not occur in it.
   */
  function HeadBefore(s: string, sep: string): (r: string)
    requires sep != []
    ensures r <= s
    ensures !Contains(s, sep) ==> r == s
    ensures Contains(s, sep) ==> OccursAt(s, sep, |r|) && |r| == Find(s, sep)
    ensures !Contains(r, sep)
  {
    var i := Find(s, sep);
    if i == -1 then
      s
    else
      assert forall j :: OccursAt(s[..i], sep, j) ==> OccursAt(s, sep, j) by {
        forall j | OccursAt(s[..i], sep, j) ensures OccursAt(s, sep, j) {
          assert s[..i][j..j + |sep|] == s[j..j + |sep|];
        }
      }
      s[..i]
  }

  /** Python's `sep.join(parts)`. */
  function Join(sep: string, parts: seq<string>): (r: string)
    ensures parts == [] ==> r == ""
    ensures |parts| == 1 ==> r == parts[0]
  {
    if parts == [] then ""
    else if |parts| == 1 then parts[0]
    else parts[0] + sep + Join(sep, parts[1..])
  }

  /** The decimal digits of a natural number, most significant first. */
  function Digits(n: nat): (r: string)
    ensures r != []
    ensures forall i :: 0 <= i < |r| ==> '0' <= r[i] <= '9'
  {
    var d := [(('0' as int) + n % 10) as char];
    if n < 10 then d else Digits(n / 10) + d
  }

  /** Python's `str(n)` for an int: an optional minus sign and the decimal digits. */
  function IntToString(n: int): string {
    if n < 0 then "-" + Digits(-n) else Digits(n)
  }
}
