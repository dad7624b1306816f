/** JavaScript's `String.prototype.trim`, as the roster applies it to a typed name. */
module Strings {

  /** The characters `trim` removes: ECMAScript's WhiteSpace (tab, vertical tab, form feed,
      the byte order mark and every Unicode space separator) and LineTerminator
      (line feed, carriage return, line and paragraph separator). */
  predicate IsSpace(c: char) {
    c in SpaceChars
  }

  const SpaceChars: set<char> := {
    '\t', '\n', '\U{000B}', '\U{000C}', '\r', ' ', '\U{00A0}', '\U{1680}',
    '\U{2000}', '\U{2001}', '\U{2002}', '\U{2003}', '\U{2004}', '\U{2005}',
    '\U{2006}', '\U{2007}', '\U{2008}', '\U{2009}', '\U{200A}',
    '\U{2028}', '\U{2029}', '\U{202F}', '\U{205F}', '\U{3000}', '\U{FEFF}'
  }

  /** Neither the first nor the last character is white space. */
  predicate Trimmed(s: string) {
    s == [] || (!IsSpace(s[0]) && !IsSpace(s[|s| - 1]))
  }

  /** The first index at or after `from` that does not hold white space (|s| if none). */
  function SkipSpaceForward(s: string, from: nat): (k: nat)
    requires from <= |s|
    ensures from <= k <= |s|
    ensures forall i :: from <= i < k ==> IsSpace(s[i])
    ensures k < |s| ==> !IsSpace(s[k])
    decreases |s| - from
  {
    if from == |s| || !IsSpace(s[from]) then from else SkipSpaceForward(s, from + 1)
  }

  /** The end of the last character before `upto`, and not before `lo`, that is not white
      space (`lo` if there is none). */
  function SkipSpaceBackward(s: string, lo: nat, upto: nat): (k: nat)
    requires lo <= upto <= |s|
    ensures lo <= k <= upto
    ensures forall i :: k <= i < upto ==> IsSpace(s[i])
    ensures lo < k ==> !IsSpace(s[k - 1])
    decreases upto
  {
    if upto == lo || !IsSpace(s[upto - 1]) then upto else SkipSpaceBackward(s, lo, upto - 1)
  }

  /** `r` sits in `s` at offset `lo`, with only white space before and after it. */
  predicate PaddedAt(s: string, lo: int, r: string) {
    && 0 <= lo <= |s| - |r|
    && r == s[lo..lo + |r|]
    && (forall i :: 0 <= i < lo ==> IsSpace(s[i]))
    && (forall i :: lo + |r| <= i < |s| ==> IsSpace(s[i]))
  }

  /** `s.trim()`: the infix of `s` between its leading and its trailing white space.
      It is empty exactly when `s` is blank. */
  function Trim(s: string): (r: string)
    ensures Trimmed(r)
    ensures exists lo :: PaddedAt(s, lo, r)
    ensures r == [] <==> forall i :: 0 <= i < |s| ==> IsSpace(s[i])
  {
    var lo := SkipSpaceForward(s, 0);
    var hi := SkipSpaceBackward(s, lo, |s|);
    assert lo < |s| ==> lo < hi;
    assert PaddedAt(s, lo, s[lo..hi]);
    s[lo..hi]
  }

  /** Trimming a name that has no outer white space changes nothing, so `trim` is idempotent. */
  lemma TrimTrimmed(s: string)
    requires Trimmed(s)
    ensures Trim(s) == s
  {
  }

  /** A non-empty infix with no outer white space, padded only by white space, is the
      trimmed string: `trim` is determined by this description. */
  lemma TrimUnique(s: string, lo: int, r: string)
    requires PaddedAt(s, lo, r) && Trimmed(r) && r != []
    ensures Trim(s) == r
  {
    var hi := lo + |r|;
    assert s[lo] == r[0] && s[hi - 1] == r[|r| - 1];
    var lo' := SkipSpaceForward(s, 0);
    assert lo' == lo;
    var hi' := SkipSpaceBackward(s, lo, |s|);
    assert hi' == hi;
  }
}
