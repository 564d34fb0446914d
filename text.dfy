/** The two PHP string primitives every admin and registration form relies on:
    `trim` with its default character list and the truthiness test `empty`. */
module Text {

  /** The characters PHP's `trim` strips by default: space, tab, line feed,
      carriage return, NUL and vertical tab. */
  predicate IsTrimmed(c: char)
  {
    c == ' ' || c == '\t' || c == '\n' || c == '\r' || c == '\0' || c == '\U{000B}'
  }

  /** Length of the leading run of whitespace. */
  function LeadingRun(s: string): (n: nat)
    ensures n <= |s|
    ensures forall k :: 0 <= k < n ==> IsTrimmed(s[k])
    ensures n == |s| || !IsTrimmed(s[n])
  {
    if |s| > 0 && IsTrimmed(s[0]) then 1 + LeadingRun(s[1..]) else 0
  }

  /** Length of the trailing run of whitespace. */
  function TrailingRun(s: string): (n: nat)
    ensures n <= |s|
    ensures forall k :: |s| - n <= k < |s| ==> IsTrimmed(s[k])
    ensures n == |s| || !IsTrimmed(s[|s| - n - 1])
  {
    if |s| > 0 && IsTrimmed(s[|s| - 1]) then 1 + TrailingRun(s[..|s| - 1]) else 0
  }

  /** `trim`: what is left of `s` once the leading and then the trailing run
      of whitespace are cut off. */
  function Trim(s: string): (r: string)
    ensures var i := LeadingRun(s);
            i + |r| <= |s| && r == s[i..i + |r|]
            && (forall k :: 0 <= k < i ==> IsTrimmed(s[k]))
            && (forall k :: i + |r| <= k < |s| ==> IsTrimmed(s[k]))
    ensures r == [] || (!IsTrimmed(r[0]) && !IsTrimmed(r[|r| - 1]))
  {
    var i := LeadingRun(s);
    var t := s[i..];
    var r := t[..|t| - TrailingRun(t)];
    assert r == s[i..i + |r|];
    assert forall k :: i + |r| <= k < |s| ==> s[k] == t[k - i];
    r
  }

  /** Trimming twice is trimming once: a trimmed value is left as it is. */
  lemma TrimIdempotent(s: string)
    ensures Trim(Trim(s)) == Trim(s)
  {
    var t := Trim(s);
    assert LeadingRun(t) == 0;
    assert t[0..] == t;
    assert TrailingRun(t) == 0;
  }

  /** PHP's `empty` on a string: true for "" and, notoriously, for "0". */
  predicate Empty(s: string)
  {
    s == "" || s == "0"
  }
}
