/** The two pieces of JavaScript string behaviour the client relies on:
    the whitespace class `\s` of its regular expressions and `String.prototype.trim`,
    which removes exactly the same set of characters from both ends. */
module JsString {

  /** ECMAScript WhiteSpace and LineTerminator code points: TAB, LF, VT, FF, CR,
      the space separators (U+0020, U+00A0, U+1680, U+2000..U+200A, U+202F, U+205F,
      U+3000), U+2028, U+2029 and the byte-order mark U+FEFF. */
  predicate IsWhitespace(c: char) {
    var n := c as int;
    (0x09 <= n <= 0x0D) || n == 0x20 || n == 0xA0 || n == 0x1680
    || (0x2000 <= n <= 0x200A) || n == 0x2028 || n == 0x2029
    || n == 0x202F || n == 0x205F || n == 0x3000 || n == 0xFEFF
  }

  /** No character of `s` is whitespace: the test `/^\S+$/` makes, minus its non-emptiness. */
  predicate NoWhitespace(s: string) {
    forall k :: 0 <= k < |s| ==> !IsWhitespace(s[k])
  }

  /** Every character of `s` is whitespace (vacuously so for the empty string). */
  predicate AllWhitespace(s: string) {
    forall k :: 0 <= k < |s| ==> IsWhitespace(s[k])
  }

  /** Where the run of whitespace starting at `i` ends: every character in between is
      whitespace, and the one at the result (if any) is not. */
  function WhitespaceRunEnd(s: string, i: nat): (r: nat)
    requires i <= |s|
    ensures i <= r <= |s|
    ensures forall k :: i <= k < r ==> IsWhitespace(s[k])
    ensures r == |s| || !IsWhitespace(s[r])
    decreases |s| - i
  {
    if i < |s| && IsWhitespace(s[i]) then WhitespaceRunEnd(s, i + 1) else i
  }

  /** Where the run of whitespace ending just before `j` starts: every character in
      between is whitespace, and the one before the result (if any) is not. */
  function WhitespaceRunStart(s: string, j: nat): (r: nat)
    requires j <= |s|
    ensures r <= j
    ensures forall k :: r <= k < j ==> IsWhitespace(s[k])
    ensures r == 0 || !IsWhitespace(s[r - 1])
  {
    if j > 0 && IsWhitespace(s[j - 1]) then WhitespaceRunStart(s, j - 1) else j
  }

  /** Drops the leading whitespace. */
  function TrimStart(s: string): string {
    s[WhitespaceRunEnd(s, 0)..]
  }

  /** Drops the trailing whitespace. */
  function TrimEnd(s: string): string {
    s[..WhitespaceRunStart(s, |s|)]
  }

  /** `String.prototype.trim`. */
  function Trim(s: string): string {
    TrimEnd(TrimStart(s))
  }

  /** The trimmed string is the infix of `s` left after removing whitespace from both
      ends, and it neither starts nor ends with whitespace. */
  lemma TrimIsInfix(s: string)
    ensures exists i, j ::
              && 0 <= i <= j <= |s| && Trim(s) == s[i..j]
              && (forall k :: 0 <= k < i ==> IsWhitespace(s[k]))
              && (forall k :: j <= k < |s| ==> IsWhitespace(s[k]))
    ensures Trim(s) == [] || (!IsWhitespace(Trim(s)[0]) && !IsWhitespace(Trim(s)[|Trim(s)| - 1]))
  {
    var i := WhitespaceRunEnd(s, 0);
    var t := s[i..];
    var e := WhitespaceRunStart(t, |t|);
    var j := i + e;
    assert Trim(s) == t[..e] == s[i..j];
    forall k | j <= k < |s| ensures IsWhitespace(s[k]) {
      assert s[k] == t[k - i];
    }
    if e > 0 {
      assert Trim(s)[0] == t[0] == s[i];
    }
  }

  /** `trim()` yields the empty string exactly when every character is whitespace;
      this is the blank-draft test of the chat's send action. */
  lemma TrimEmptyIffAllWhitespace(s: string)
    ensures Trim(s) == [] <==> AllWhitespace(s)
  {
    var i := WhitespaceRunEnd(s, 0);
    var t := s[i..];
    if i < |s| {
      // the first character after the leading run is not whitespace, and TrimEnd keeps it
      var e := WhitespaceRunStart(t, |t|);
      assert !IsWhitespace(t[0]);
      assert e > 0;
      assert Trim(s) == t[..e];
      assert !AllWhitespace(s) by { assert !IsWhitespace(s[i]); }
    } else {
      assert t == [];
    }
  }

  /** A string without whitespace is left unchanged by `trim()`. */
  lemma TrimKeepsWhitespaceFree(s: string)
    requires NoWhitespace(s)
    ensures Trim(s) == s
  {
    assert WhitespaceRunEnd(s, 0) == 0;
    assert TrimStart(s) == s;
    assert WhitespaceRunStart(s, |s|) == |s|;
    assert TrimEnd(s) == s;
  }

  /** Trimming twice is trimming once: a trimmed string is a fixed point. */
  lemma TrimIdempotent(s: string)
    ensures Trim(Trim(s)) == Trim(s)
  {
    var r := Trim(s);
    TrimIsInfix(s);
    if r != [] {
      assert WhitespaceRunEnd(r, 0) == 0;
      assert TrimStart(r) == r;
      assert WhitespaceRunStart(r, |r|) == |r|;
      assert TrimEnd(r) == r;
    }
  }
}
