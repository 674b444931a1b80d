/**
  The two string operations `togglePhrase` uses on the objective:
  `String.prototype.trim` and `String.prototype.replace(phrase, "")` with a
  string pattern, which deletes only the first literal occurrence.
*/
module Text {

  import opened Wrappers

  /** The characters `trim` strips: ECMAScript WhiteSpace and LineTerminator
      (tab, vertical tab, form feed, space, no-break space, byte-order mark,
      the Unicode space separators, line feed, carriage return, line and
      paragraph separators). */
  predicate IsWhitespace(c: char)
  {
    var n := c as int;
    || n == 0x09 || n == 0x0A || n == 0x0B || n == 0x0C || n == 0x0D
    || n == 0x20 || n == 0xA0 || n == 0x1680
    || (0x2000 <= n <= 0x200A)
    || n == 0x2028 || n == 0x2029 || n == 0x202F || n == 0x205F
    || n == 0x3000 || n == 0xFEFF
  }

  /** Neither end of `s` is whitespace. */
  predicate IsTrimmed(s: string)
  {
    s == [] || (!IsWhitespace(s[0]) && !IsWhitespace(s[|s| - 1]))
  }

  /** The index of the first character at or after `i` that is not
      whitespace, or `|s|` when there is none. */
  function SkipLeading(s: string, i: nat): (k: nat)
    requires i <= |s|
    ensures i <= k <= |s|
    ensures forall j :: i <= j < k ==> IsWhitespace(s[j])
    ensures k < |s| ==> !IsWhitespace(s[k])
    decreases |s| - i
  {
    if i < |s| && IsWhitespace(s[i]) then SkipLeading(s, i + 1) else i
  }

  /** The end of `s[lo..hi]` once its trailing whitespace is cut off. */
  function SkipTrailing(s: string, lo: nat, hi: nat): (k: nat)
    requires lo <= hi <= |s|
    ensures lo <= k <= hi
    ensures forall j :: k <= j < hi ==> IsWhitespace(s[j])
    ensures lo < k ==> !IsWhitespace(s[k - 1])
    decreases hi
  {
    if lo < hi && IsWhitespace(s[hi - 1]) then SkipTrailing(s, lo, hi - 1) else hi
  }

  /** `r` is the slice of `s` starting at `i`, and everything of `s` before
      and after that slice is whitespace. */
  predicate SliceWithin(s: string, r: string, i: nat)
  {
    && i + |r| <= |s|
    && r == s[i..i + |r|]
    && (forall k :: 0 <= k < i ==> IsWhitespace(s[k]))
    && (forall k :: i + |r| <= k < |s| ==> IsWhitespace(s[k]))
  }

  /** `s.trim()`: the result is a slice of `s`, everything cut off on either
      side is whitespace, and the result has no whitespace at either end. */
  function Trim(s: string): (r: string)
    ensures IsTrimmed(r)
    ensures exists i :: SliceWithin(s, r, i)
  {
    var a := SkipLeading(s, 0);
    var b := SkipTrailing(s, a, |s|);
    assert SliceWithin(s, s[a..b], a);
    s[a..b]
  }

  /** A string without whitespace at either end is its own trim. */
  lemma TrimTrimmed(s: string)
    requires IsTrimmed(s)
    ensures Trim(s) == s
  {
    if s != [] {
      assert SkipLeading(s, 0) == 0;
      assert SkipTrailing(s, 0, |s|) == |s|;
    }
  }

  /** `trim` is idempotent. */
  lemma TrimIdempotent(s: string)
    ensures Trim(Trim(s)) == Trim(s)
  {
    TrimTrimmed(Trim(s));
  }

  /** Trimming a trimmed, non-empty string with one space after it gives the
      string back. */
  lemma TrimTrailingSpace(s: string)
    requires IsTrimmed(s) && s != []
    ensures Trim(s + " ") == s
  {
    var t := s + " ";
    assert SkipLeading(t, 0) == 0;
    assert SkipTrailing(t, 0, |t|) == SkipTrailing(t, 0, |s|) == |s|;
    assert t[0..|s|] == s;
  }

  /** `p` occurs in `s` starting at index `k`. */
  predicate OccursAt(s: string, p: string, k: nat)
  {
    k + |p| <= |s| && s[k..k + |p|] == p
  }

  /** The first index at or after `from` where `p` occurs in `s`, if any. */
  function IndexOfFrom(s: string, p: string, from: nat): (r: Option<nat>)
    ensures r.Some? ==> from <= r.value && OccursAt(s, p, r.value)
    ensures r.Some? ==> forall k: nat :: from <= k < r.value ==> !OccursAt(s, p, k)
    ensures r.None? ==> forall k: nat :: from <= k ==> !OccursAt(s, p, k)
    decreases |s| - from
  {
    if from + |p| > |s| then None
    else if s[from..from + |p|] == p then Some(from)
    else IndexOfFrom(s, p, from + 1)
  }

  /** `s.replace(p, "")`: the first occurrence of `p` is deleted; when `p`
      does not occur, `s` is returned as it is. */
  function RemoveFirst(s: string, p: string): (r: string)
    ensures (forall k: nat :: !OccursAt(s, p, k)) ==> r == s
    ensures forall i: nat :: OccursAt(s, p, i) && (forall k: nat :: k < i ==> !OccursAt(s, p, k)) ==>
              r == s[..i] + s[i + |p|..]
  {
    match IndexOfFrom(s, p, 0)
    case None => s
    case Some(i) => s[..i] + s[i + |p|..]
  }
}
