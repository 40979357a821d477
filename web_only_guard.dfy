/** The route guard that lets only a mobile web browser through: a desktop browser, or
    the app's own packaged web view, is sent to /Home instead. The browser's globals
    come in as a value; the regular-expression tests are stated as the substring
    conditions they decide. */
module WebOnlyGuard {

  /** What the guard reads from the browser: the two navigator strings and whether
      the `cordova` and `Capacitor` globals are defined. */
  datatype Browser = Browser(userAgent: string, vendor: string,
                             cordovaDefined: bool, capacitorDefined: bool)

  /** `navigator.userAgent || navigator.vendor || ''`: the first nonempty one. */
  function UserAgentOf(b: Browser): string {
    if b.userAgent != "" then b.userAgent else b.vendor
  }

  /** Case folding of a `/…/i` test whose pattern is ASCII: ASCII letters compare
      without case, and no other character can equal an ASCII pattern character. */
  function LowerAscii(c: char): char {
    if 'A' <= c <= 'Z' then (c as int + ('a' as int - 'A' as int)) as char else c
  }

  function Lower(s: string): string {
    seq(|s|, k requires 0 <= k < |s| => LowerAscii(s[k]))
  }

  predicate OccursAt(text: string, i: int, pat: string) {
    0 <= i && i + |pat| <= |text| && text[i..i + |pat|] == pat
  }

  /** An unanchored literal regular expression matches: the pattern occurs somewhere. */
  predicate Contains(text: string, pat: string) {
    exists i | 0 <= i <= |text| :: OccursAt(text, i, pat)
  }

  /** The characters `.` does not match. */
  predicate IsLineTerminator(c: char) {
    c == '\n' || c == '\r' || c as int == 0x2028 || c as int == 0x2029
  }

  predicate IsDigitOrDot(c: char) {
    '0' <= c <= '9' || c == '.'
  }

  /** `/Version\/[\d.]+.*Chrome/` matches (on lower-cased text) with "version/" at i,
      the digits and dots in [i + 8, j), the `.*` over [j, k) and "chrome" at k. */
  predicate VersionChromeAt(l: string, i: int, j: int, k: int) {
    && OccursAt(l, i, "version/")
    && i + 8 < j <= k
    && OccursAt(l, k, "chrome")
    && (forall p :: i + 8 <= p < j ==> IsDigitOrDot(l[p]))
    && (forall p :: j <= p < k ==> !IsLineTerminator(l[p]))
  }

  predicate VersionThenChrome(l: string) {
    exists i, j, k | 0 <= i <= j <= k <= |l| :: VersionChromeAt(l, i, j, k)
  }

  /** `isFromApk`: any one of the five indicators. */
  predicate IsFromApk(b: Browser) {
    var l := Lower(UserAgentOf(b));
    Contains(l, "wv") || VersionThenChrome(l) || Contains(l, "median")
    || b.cordovaDefined || b.capacitorDefined
  }

  /** `/Android|iPhone|iPad|iPod|IEMobile|BlackBerry|Opera Mini/i`. */
  predicate IsMobile(b: Browser) {
    var l := Lower(UserAgentOf(b));
    Contains(l, "android") || Contains(l, "iphone") || Contains(l, "ipad")
    || Contains(l, "ipod") || Contains(l, "iemobile") || Contains(l, "blackberry")
    || Contains(l, "opera mini")
  }

  /** The value `canActivate` returns and the navigations it starts. */
  datatype GuardResult = GuardResult(allowed: bool, navigations: seq<string>)

  function CanActivate(b: Browser): GuardResult {
    if !IsMobile(b) || IsFromApk(b) then GuardResult(false, ["/Home"])
    else GuardResult(true, [])
  }

  /** The route opens exactly for a mobile browser that is not the packaged app, and
      the guard navigates to /Home exactly when it refuses. */
  lemma AllowedIffMobileWeb(b: Browser)
    ensures CanActivate(b).allowed <==> IsMobile(b) && !IsFromApk(b)
    ensures CanActivate(b).navigations == (if CanActivate(b).allowed then [] else ["/Home"])
  {
  }

  /** Each indicator alone marks the packaged app and so closes the route, on a mobile
      user agent as anywhere else. */
  lemma EachApkIndicatorRefuses(b: Browser)
    requires var l := Lower(UserAgentOf(b));
             || Contains(l, "wv") || VersionThenChrome(l) || Contains(l, "median")
             || b.cordovaDefined || b.capacitorDefined
    ensures IsFromApk(b) && !CanActivate(b).allowed
  {
  }

  /** A user agent without any mobile marker is always refused. */
  lemma DesktopRefused(b: Browser)
    requires !IsMobile(b)
    ensures CanActivate(b) == GuardResult(false, ["/Home"])
  {
  }

  // ---------------------------------------------------------------------------
  // What the tests find, stated for whole families of user agents

  lemma LowerLength(s: string)
    ensures |Lower(s)| == |s|
  {
  }

  lemma LowerConcat(a: string, b: string)
    ensures Lower(a + b) == Lower(a) + Lower(b)
  {
    assert |Lower(a + b)| == |Lower(a) + Lower(b)|;
    forall k | 0 <= k < |a + b| ensures Lower(a + b)[k] == (Lower(a) + Lower(b))[k] {
      if k >= |a| { assert (a + b)[k] == b[k - |a|]; }
    }
  }

  /** A marker written in any mixture of cases, anywhere in the user agent, is found. */
  lemma {:induction false} MarkerFoundInAnyCase(pre: string, marker: string, post: string, pat: string)
    requires Lower(marker) == pat
    ensures Contains(Lower(pre + marker + post), pat)
  {
    LowerConcat(pre + marker, post);
    LowerConcat(pre, marker);
    var l := Lower(pre + marker + post);
    assert l == Lower(pre) + pat + Lower(post);
    LowerLength(pre);
    assert l[|pre|..|pre| + |pat|] == pat;
    assert OccursAt(l, |pre|, pat);
  }

  /** Every user agent of the shape the version test describes is flagged: "Version/"
      in any case, one or more digits or dots, any characters but line terminators,
      then "Chrome" in any case. */
  lemma {:induction false} VersionThenChromeFound(pre: string, version: string, digits: string,
                                                  middle: string, chrome: string, post: string)
    requires Lower(version) == "version/" && Lower(chrome) == "chrome"
    requires |digits| > 0 && forall p :: 0 <= p < |digits| ==> IsDigitOrDot(digits[p])
    requires forall p :: 0 <= p < |middle| ==> !IsLineTerminator(middle[p])
    ensures VersionThenChrome(Lower(pre + version + digits + middle + chrome + post))
  {
    var ua := pre + version + digits + middle + chrome + post;
    LowerConcat(pre + version + digits + middle + chrome, post);
    LowerConcat(pre + version + digits + middle, chrome);
    LowerConcat(pre + version + digits, middle);
    LowerConcat(pre + version, digits);
    LowerConcat(pre, version);
    var l := Lower(ua);
    var dl, ml := Lower(digits), Lower(middle);
    assert l == Lower(pre) + "version/" + dl + ml + "chrome" + Lower(post);
    LowerLength(pre); LowerLength(digits); LowerLength(middle);
    var i := |pre|;
    var j := i + 8 + |digits|;
    var k := j + |middle|;
    assert l[i..i + 8] == "version/";
    assert l[k..k + 6] == "chrome";
    forall p | i + 8 <= p < j ensures IsDigitOrDot(l[p]) {
      assert l[p] == dl[p - (i + 8)];
    }
    forall p | j <= p < k ensures !IsLineTerminator(l[p]) {
      assert l[p] == ml[p - j];
    }
    assert VersionChromeAt(l, i, j, k);
  }

  /** The version test needs the text "version/". */
  lemma VersionNeedsMarker(l: string)
    requires VersionThenChrome(l)
    ensures Contains(l, "version/")
  {
    var i, j, k :| 0 <= i <= j <= k <= |l| && VersionChromeAt(l, i, j, k);
    assert OccursAt(l, i, "version/");
  }

  /** The version test needs the text "chrome" as well. */
  lemma VersionNeedsChrome(l: string)
    requires VersionThenChrome(l)
    ensures Contains(l, "chrome")
  {
    var i, j, k :| 0 <= i <= j <= k <= |l| && VersionChromeAt(l, i, j, k);
    assert OccursAt(l, k, "chrome");
  }

  /** A pattern one of whose characters does not appear in the text cannot occur in it. */
  lemma AbsentCharacter(text: string, pat: string, j: int)
    requires 0 <= j < |pat| && pat[j] !in text
    ensures !Contains(text, pat)
  {
  }

  /** A lower-case letter that appears in the text in neither case does not appear in
      its lowered form. */
  lemma AbsentLetter(s: string, c: char)
    requires 'a' <= c <= 'z' && c !in s && (c as int - 32) as char !in s
    ensures c !in Lower(s)
  {
  }

  // ---------------------------------------------------------------------------
  // Particular browsers

  /** An Android web view, which marks itself with "wv", is refused, in whatever case
      the marker is written; the vendor string stands in for an empty user agent. */
  lemma AndroidWebViewRefused(pre: string, post: string)
    ensures !CanActivate(Browser("", pre + "WV" + post, false, false)).allowed
  {
    assert Lower("WV") == "wv";
    MarkerFoundInAnyCase(pre, "WV", post, "wv");
  }

  /** The older Android web view, "... Version/4.0 Chrome/99 ...", is refused. */
  lemma OldWebViewRefused(pre: string, post: string)
    ensures !CanActivate(Browser(pre + "Version/" + "4.0" + " " + "Chrome" + post, "", false, false)).allowed
  {
    assert Lower("Version/") == "version/";
    assert Lower("Chrome") == "chrome";
    VersionThenChromeFound(pre, "Version/", "4.0", " ", "Chrome", post);
  }

  /** A pattern with a letter the text lacks in both cases does not occur in the
      lowered text. */
  lemma AbsentLetterNotFound(s: string, pat: string, j: int)
    requires 0 <= j < |pat| && 'a' <= pat[j] <= 'z'
    requires pat[j] !in s && (pat[j] as int - 32) as char !in s
    ensures !Contains(Lower(s), pat)
  {
    AbsentLetter(s, pat[j]);
    AbsentCharacter(Lower(s), pat, j);
  }

  /** A mobile user agent with none of the markers, outside the packaged app, passes. */
  lemma UnmarkedMobileAllowed(b: Browser)
    requires var l := Lower(UserAgentOf(b));
             && (Contains(l, "android") || Contains(l, "iphone") || Contains(l, "ipad")
                 || Contains(l, "ipod") || Contains(l, "iemobile") || Contains(l, "blackberry")
                 || Contains(l, "opera mini"))
             && !Contains(l, "wv") && !Contains(l, "median") && !VersionThenChrome(l)
    requires !b.cordovaDefined && !b.capacitorDefined
    ensures CanActivate(b) == GuardResult(true, [])
  {
  }

  /** The letters whose absence, in either case, rules out all three text markers:
      'w' for "wv", 'd' for "median" and 'v' for "version/". */
  predicate LacksMarkerLetters(s: string) {
    'w' !in s && 'W' !in s && 'd' !in s && 'D' !in s && 'v' !in s && 'V' !in s
  }

  /** An iPhone browser passes whenever its user agent names "iPhone" and, in either
      case, has neither "wv" nor "median" nor "chrome": the Safari user agents carry
      "Version/…" but not "Chrome", so the version test cannot match them. */
  lemma IPhoneSafariAllowed(ua: string)
    requires var l := Lower(ua);
             Contains(l, "iphone") && !Contains(l, "wv") && !Contains(l, "median")
             && !Contains(l, "chrome")
    ensures CanActivate(Browser(ua, "", false, false)) == GuardResult(true, [])
  {
    if VersionThenChrome(Lower(ua)) {
      VersionNeedsChrome(Lower(ua));
    }
    UnmarkedMobileAllowed(Browser(ua, "", false, false));
  }

  /** A special case decided by letters alone: a user agent that names "iPhone" and
      elsewhere has none of the letters w, d, v in either case, such as
      "Mozilla/5.0 (iPhone) Safari/604.1", passes. */
  lemma IPhoneWithoutMarkerLettersAllowed(pre: string, post: string)
    requires LacksMarkerLetters(pre) && LacksMarkerLetters(post)
    ensures CanActivate(Browser(pre + "iPhone" + post, "", false, false)) == GuardResult(true, [])
  {
    var ua := pre + "iPhone" + post;
    assert Lower("iPhone") == "iphone";
    MarkerFoundInAnyCase(pre, "iPhone", post, "iphone");
    assert LacksMarkerLetters("iPhone");
    assert LacksMarkerLetters(ua);
    AbsentLetterNotFound(ua, "wv", 0);
    AbsentLetterNotFound(ua, "median", 2);
    AbsentLetterNotFound(ua, "version/", 0);
    if VersionThenChrome(Lower(ua)) {
      VersionNeedsMarker(Lower(ua));
    }
    UnmarkedMobileAllowed(Browser(ua, "", false, false));
  }
}
