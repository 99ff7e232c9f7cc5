/**
 * Python's notion of whitespace and `str.strip()` with no argument, on strings
 * of code points. Both the form handlers and the pool-table cleanup strip their
 * input, and Python's `int()` skips the same whitespace around a number.
 */
module Text {

  /** The code points for which Python's `str.isspace()` holds. */
  function IsSpace(c: char): (b: bool)
    // the ASCII whitespace: space, tab, line feed, carriage return, vertical tab, form feed
    ensures c in " \t\n\r\U{B}\U{C}" ==> b
    // no printable ASCII character other than the space is whitespace, so no digit and no sign
    ensures ' ' < c <= '~' ==> !b
  {
    || ('\t' <= c <= '\r')                // tab, line feed, vertical tab, form feed, carriage return
    || ('\U{1C}' <= c <= '\U{1F}')        // file, group, record and unit separators
    || c == ' ' || c == '\U{85}' || c == '\U{A0}' || c == '\U{1680}'
    || ('\U{2000}' <= c <= '\U{200A}')
    || c == '\U{2028}' || c == '\U{2029}' || c == '\U{202F}' || c == '\U{205F}' || c == '\U{3000}'
  }

  predicate AllSpace(s: string)
  {
    forall k :: 0 <= k < |s| ==> IsSpace(s[k])
  }

  /** Every character of `s` at a position in `[lo, hi)` is whitespace. */
  predicate SpaceBetween(s: string, lo: int, hi: int)
    requires 0 <= lo <= hi <= |s|
  {
    forall k :: lo <= k < hi ==> IsSpace(s[k])
  }

  /** `s[i..j]` is what remains of `s` once the whitespace around it is removed:
      everything outside is whitespace and, unless nothing remains, it starts
      and ends with a character that is not. */
  predicate StrippedAt(s: string, i: int, j: int)
  {
    && 0 <= i <= j <= |s|
    && SpaceBetween(s, 0, i)
    && SpaceBetween(s, j, |s|)
    && (i < j ==> !IsSpace(s[i]) && !IsSpace(s[j - 1]))
  }

  /** The first position at or after `i` that does not hold whitespace
      (`|s|` when there is none): where `str.lstrip()` cuts. */
  function SkipSpaceForward(s: string, i: nat): (k: nat)
    requires i <= |s|
    ensures i <= k <= |s| && SpaceBetween(s, i, k)
    ensures k < |s| ==> !IsSpace(s[k])
    decreases |s| - i
  {
    if i < |s| && IsSpace(s[i]) then SkipSpaceForward(s, i + 1) else i
  }

  /** The position just after the last character of `s[lo..j]` that is not
      whitespace (`lo` when there is none): where `str.rstrip()` cuts. */
  function SkipSpaceBackward(s: string, lo: nat, j: nat): (k: nat)
    requires lo <= j <= |s|
    ensures lo <= k <= j && SpaceBetween(s, k, j)
    ensures lo < k ==> !IsSpace(s[k - 1])
    decreases j
  {
    if lo < j && IsSpace(s[j - 1]) then SkipSpaceBackward(s, lo, j - 1) else j
  }

  /** `str.strip()`: the slice between the leading and the trailing whitespace. */
  function Strip(s: string): (r: string)
    ensures StrippedAt(s, SkipSpaceForward(s, 0), SkipSpaceForward(s, 0) + |r|)
    ensures r == s[SkipSpaceForward(s, 0)..SkipSpaceForward(s, 0) + |r|]
  {
    var i := SkipSpaceForward(s, 0);
    s[i..SkipSpaceBackward(s, i, |s|)]
  }

  /** Only one slice of `s` satisfies `StrippedAt` (the empty one when `s` is all whitespace). */
  lemma StrippedAtUnique(s: string, i: int, j: int, i': int, j': int)
    requires StrippedAt(s, i, j) && StrippedAt(s, i', j')
    ensures s[i..j] == s[i'..j']
  {
  }

  /** Any slice that `StrippedAt` describes is what `Strip` returns. */
  lemma StripUnique(s: string, i: int, j: int)
    requires StrippedAt(s, i, j)
    ensures Strip(s) == s[i..j]
  {
  }

  /** Stripping twice is stripping once. */
  lemma StripIdempotent(s: string)
    ensures Strip(Strip(s)) == Strip(s)
  {
  }

  /** Whitespace around a string never survives `Strip`. */
  lemma StripSurrounding(pre: string, s: string, post: string)
    requires AllSpace(pre) && AllSpace(post)
    ensures Strip(pre + s + post) == Strip(s)
  {
    var i := SkipSpaceForward(s, 0);
    var j := i + |Strip(s)|;
    StrippedAtSurrounded(pre, s, post, i, j);
    StripUnique(pre + s + post, |pre| + i, |pre| + j);
  }

  /** Padding a string with whitespace shifts its stripped slice and keeps it stripped. */
  lemma StrippedAtSurrounded(pre: string, s: string, post: string, i: int, j: int)
    requires AllSpace(pre) && AllSpace(post) && StrippedAt(s, i, j)
    ensures StrippedAt(pre + s + post, |pre| + i, |pre| + j)
    ensures (pre + s + post)[|pre| + i..|pre| + j] == s[i..j]
  {
  }

  /** The result of `Strip` never starts or ends with whitespace, and is empty
      exactly when the input is all whitespace. */
  lemma StripBoundaries(s: string)
    ensures Strip(s) == [] || (!IsSpace(Strip(s)[0]) && !IsSpace(Strip(s)[|Strip(s)| - 1]))
    ensures Strip(s) == [] <==> AllSpace(s)
  {
  }
}
