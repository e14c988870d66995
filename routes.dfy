/** The URL-path predicates of keyboard.js: isOnProfilePage,
    isOnProfileMediaGrid, getProfileUsername and navigateProfileTab, and the
    two helpers of goDeeper, getStatusId and toAbsXUrl.

    Every regular expression here has the shape `^\/[a-zA-Z0-9_]+X` where X
    is empty, `$`, or starts with '/'. Since '/' is not a word character the
    handle can only end where the run of word characters ends, so the match is
    computed with WordRun; HandleThenMatchesPattern proves this agrees with
    reading the expression declaratively ("the handle may end anywhere"). */
module Routes {
  import opened Text

  const XOrigin: string := "https://x.com"

  /** Length of the handle captured by `^\/([a-zA-Z0-9_]+)`, 0 when none. */
  function HandleLen(path: string): (n: nat)
    ensures n > 0 ==> 1 + n <= |path| && path[0] == '/' && AllWordChars(path[1..1 + n])
    ensures n > 0 ==> 1 + n == |path| || !IsWordChar(path[1 + n])
  {
    if |path| > 0 && path[0] == '/' then
      var n := WordRun(path[1..]);
      assert path[1..][..n] == path[1..1 + n];
      n
    else 0
  }

  /** The part of each pattern that follows the handle. */
  datatype Tail =
    | ProfileTabs   // ($|\/with_replies|\/media|\/likes|\/highlights)
    | MediaTab      // \/media(\/|$)
    | StatusPage    // \/status\/\d+
    | MediaSubpage  // \/(media|likes|photo|video)

  predicate TailMatches(tail: Tail, t: string) {
    match tail
    case ProfileTabs =>
      t == "" || StartsWith(t, "/with_replies") || StartsWith(t, "/media")
      || StartsWith(t, "/likes") || StartsWith(t, "/highlights")
    case MediaTab => StartsWith(t, "/media") && (|t| == 6 || t[6] == '/')
    case StatusPage => StartsWith(t, "/status/") && |t| > 8 && IsDigit(t[8])
    case MediaSubpage =>
      StartsWith(t, "/media") || StartsWith(t, "/likes")
      || StartsWith(t, "/photo") || StartsWith(t, "/video")
  }

  /** `^\/[a-zA-Z0-9_]+` followed by the tail, with the handle taken maximal. */
  predicate HandleThen(path: string, tail: Tail) {
    var n := HandleLen(path);
    n > 0 && TailMatches(tail, path[1 + n..])
  }

  /** The handle `[a-zA-Z0-9_]+` after the leading '/' may end at index k. */
  predicate HandleEndsAt(path: string, k: nat) {
    1 < k <= |path| && path[0] == '/' && AllWordChars(path[1..k])
  }

  /** The regular expression read declaratively: some end of the handle works. */
  ghost predicate PatternMatches(path: string, tail: Tail) {
    exists k: nat :: HandleEndsAt(path, k) && TailMatches(tail, path[k..])
  }

  /** Every tail is empty or starts with '/'. */
  lemma TailStartsWithSlash(tail: Tail, t: string)
    requires TailMatches(tail, t)
    ensures t == [] || t[0] == '/'
  {
    if t != [] {
      assert t[..1] == "/";
    }
  }

  /** The deterministic computation is exactly the regular expression. */
  lemma HandleThenMatchesPattern(path: string, tail: Tail)
    ensures HandleThen(path, tail) <==> PatternMatches(path, tail)
  {
    if PatternMatches(path, tail) {
      var k: nat :| HandleEndsAt(path, k) && TailMatches(tail, path[k..]);
      var q := path[1..];
      TailStartsWithSlash(tail, path[k..]);
      assert q[..k - 1] == path[1..k];
      assert k < |path| ==> q[k - 1] == path[k..][0];
      MaximalWordRun(q, k - 1);
    }
    if HandleThen(path, tail) {
      assert HandleEndsAt(path, 1 + HandleLen(path));
    }
  }

  predicate HasReservedPrefix(path: string) {
    StartsWith(path, "/i/") || StartsWith(path, "/home") || StartsWith(path, "/search")
    || StartsWith(path, "/compose") || StartsWith(path, "/settings") || StartsWith(path, "/messages")
  }

  /** isOnProfilePage: a handle optionally followed by a profile tab, not a
      reserved top-level path, and no status segment anywhere. */
  predicate IsOnProfilePage(path: string) {
    HandleThen(path, ProfileTabs) && !HasReservedPrefix(path) && !Contains(path, "/status/")
  }

  /** isOnProfileMediaGrid: `/handle/media` ending there or followed by '/'. */
  predicate IsOnProfileMediaGrid(path: string) {
    HandleThen(path, MediaTab) && !Contains(path, "/status/")
  }

  /** getProfileUsername: the handle after the leading '/', if any. */
  function ProfileUsername(path: string): (r: Option<string>)
    ensures r.Some? <==> HandleLen(path) > 0
    ensures r.Some? ==> r.value != "" && AllWordChars(r.value) && StartsWith(path, "/" + r.value)
    ensures r.Some? ==> |r.value| + 1 == |path| || !IsWordChar(path[|r.value| + 1])
  {
    var n := HandleLen(path);
    if n > 0 then Some(path[1..1 + n]) else None
  }

  /** The four profile tabs that keys 1..4 select. */
  function TabSuffix(i: nat): string
    requires i < 4
  {
    ["", "/with_replies", "/media", "/likes"][i]
  }

  /** navigateProfileTab: the URL to load, or None when the key is ignored. */
  function ProfileTabUrl(path: string, tabIndex: int): (r: Option<string>)
    ensures r.Some? <==> IsOnProfilePage(path) && 0 <= tabIndex < 4
  {
    if !IsOnProfilePage(path) then None
    else
      match ProfileUsername(path)
      case None => None
      case Some(u) => if 0 <= tabIndex < 4 then Some(XOrigin + "/" + u + TabSuffix(tabIndex)) else None
  }

  /** A prefix test on "/" + u + y decides the same test on "/" + u + x
      whenever the prefix cannot end inside the handle with a '/'. */
  lemma PrefixDecidedByHandle(u: string, x: string, y: string, r: string)
    requires x == "" || x[0] == '/'
    requires y == "" || y[0] == '/'
    requires |u| + 1 >= |r| || r[..|u| + 1] != "/" + u || r[|u| + 1] != '/'
    requires StartsWith("/" + u + y, r)
    ensures StartsWith("/" + u + x, r)
  {
    assert |r| <= |u| + 1;
    assert r == ("/" + u + y)[..|r|] == ("/" + u)[..|r|] == ("/" + u + x)[..|r|];
  }

  /** The path "/" + u + suf, for a handle u and a suffix that is empty or
      starts with '/', has handle u and tail suf. */
  lemma HandleOf(u: string, suf: string)
    requires u != "" && AllWordChars(u)
    requires suf == "" || suf[0] == '/'
    ensures HandleLen("/" + u + suf) == |u|
    ensures ("/" + u + suf)[1 + |u|..] == suf
    ensures ProfileUsername("/" + u + suf) == Some(u)
  {
    var p := "/" + u + suf;
    var q := u + suf;
    assert p[1..] == q;
    assert q[..|u|] == u;
    assert |u| < |q| ==> q[|u|] == suf[0];
    MaximalWordRun(q, |u|);
    assert HandleLen(p) == |u|;
    assert p[1..1 + |u|] == q[..|u|];
  }

  /** Tab navigation lands on a profile page of the same user, and on its
      media grid exactly for tab index 2. The handles "i" and "status" are
      the exceptions: "/i/likes" is reserved and "/status/likes" contains a
      status segment. */
  lemma ProfileTabTarget(path: string, i: int)
    requires IsOnProfilePage(path) && 0 <= i < 4
    requires ProfileUsername(path) != Some("i") && ProfileUsername(path) != Some("status")
    ensures var u := ProfileUsername(path).value;
            var p := "/" + u + TabSuffix(i);
            && ProfileTabUrl(path, i) == Some(XOrigin + "/" + u + TabSuffix(i))
            && IsOnProfilePage(p) && ProfileUsername(p) == Some(u)
            && (IsOnProfileMediaGrid(p) <==> i == 2)
  {
    var u := ProfileUsername(path).value;
    var rest := path[1 + |u|..];
    assert path == "/" + u + rest;
    TabLandsOnProfile(u, i, rest);
    MediaTabOnlyForIndex2(u, i);
  }

  /** The tab URL of a profile is a profile page of the same handle. */
  lemma TabLandsOnProfile(u: string, i: int, rest: string)
    requires u != "" && AllWordChars(u) && u != "i" && u != "status" && 0 <= i < 4
    requires TailMatches(ProfileTabs, rest) && !HasReservedPrefix("/" + u + rest)
    ensures IsOnProfilePage("/" + u + TabSuffix(i)) && ProfileUsername("/" + u + TabSuffix(i)) == Some(u)
  {
    var suf := TabSuffix(i);
    HandleOf(u, suf);
    NoReservedPrefix(u, suf, rest);
    NoStatusInTab(u, i);
    assert TailMatches(ProfileTabs, suf);
  }

  lemma MediaTabOnlyForIndex2(u: string, i: int)
    requires u != "" && AllWordChars(u) && u != "status" && 0 <= i < 4
    ensures IsOnProfileMediaGrid("/" + u + TabSuffix(i)) <==> i == 2
  {
    var suf := TabSuffix(i);
    HandleOf(u, suf);
    NoStatusInTab(u, i);
    if i == 2 {
      assert TailMatches(MediaTab, suf);
    } else {
      assert suf == "" || suf[1] != "/media"[1];
      assert !TailMatches(MediaTab, suf);
    }
  }

  lemma NoReservedPrefix(u: string, x: string, y: string)
    requires u != "i"
    requires x == "" || x[0] == '/'
    requires y == "" || y[0] == '/'
    requires !HasReservedPrefix("/" + u + y)
    ensures !HasReservedPrefix("/" + u + x)
  {
    assert |u| == 1 ==> ("/" + u)[1] == u[0] != 'i';
    if StartsWith("/" + u + x, "/i/") { PrefixDecidedByHandle(u, y, x, "/i/"); }
    if StartsWith("/" + u + x, "/home") { PrefixDecidedByHandle(u, y, x, "/home"); }
    if StartsWith("/" + u + x, "/search") { PrefixDecidedByHandle(u, y, x, "/search"); }
    if StartsWith("/" + u + x, "/compose") { PrefixDecidedByHandle(u, y, x, "/compose"); }
    if StartsWith("/" + u + x, "/settings") { PrefixDecidedByHandle(u, y, x, "/settings"); }
    if StartsWith("/" + u + x, "/messages") { PrefixDecidedByHandle(u, y, x, "/messages"); }
  }

  lemma NoStatusInTab(u: string, i: int)
    requires u != "" && AllWordChars(u) && u != "status" && 0 <= i < 4
    ensures !Contains("/" + u + TabSuffix(i), "/status/")
  {
    var suf := TabSuffix(i);
    var p := "/" + u + suf;
    var n := |u|;
    var w := "/status/";
    assert suf == "" || (suf[0] == '/' && suf[1] != 's' && AllWordChars(suf[1..])) by {
      if i == 1 { assert suf[1..] == "with_replies"; }
      if i == 2 { assert suf[1..] == "media"; }
      if i == 3 { assert suf[1..] == "likes"; }
    }
    forall k: nat | k <= |p| ensures !OccursAt(p, w, k) {
      if k + 8 <= |p| {
        assert p[k..][..8] == p[k..k + 8];
        if k == 0 {
          if n > 6 {
            assert p[7] == u[6];
          } else if n < 6 {
            assert p[1 + n] == '/';
          } else {
            assert p[1..7] == u;
          }
        } else if k <= n {
          assert p[k] == u[k - 1];
        } else if k == n + 1 {
          assert p[k + 1] == suf[1];
        } else {
          assert p[k] == suf[1..][k - 2 - n];
        }
      }
    }
    ContainsIff(p, w);
  }

  // ---------------------------------------------------------------
  // getStatusId: `\/status\/(\d+)`, first match, maximal digit run
  // ---------------------------------------------------------------

  /** The pattern `\/status\/\d` matches at the start of t. */
  predicate StatusAt(t: string) { |t| > 8 && t[..8] == "/status/" && IsDigit(t[8]) }

  /** The digits captured by `\/status\/(\d+)` matched at the start of t. */
  function Capture(t: string): (d: string)
    requires StatusAt(t)
    ensures d != "" && AllDigits(d) && "/status/" + d <= t
    ensures 8 + |d| == |t| || !IsDigit(t[8 + |d|])
  {
    var n := DigitRun(t[8..]);
    assert t[8..][..n] == t[8..8 + n];
    t[8..8 + n]
  }

  /** Index of the leftmost match of `\/status\/\d` in s, |s| when none. */
  function StatusIndex(s: string): (k: nat)
    ensures k <= |s|
    ensures k < |s| ==> StatusAt(s[k..])
    ensures forall j :: 0 <= j < k ==> !StatusAt(s[j..])
    decreases |s|
  {
    if |s| == 0 then 0
    else if StatusAt(s) then (assert s[0..] == s; 0)
    else
      var m := StatusIndex(s[1..]);
      assert forall j :: 1 <= j <= |s| ==> s[j..] == s[1..][j - 1..];
      assert s[0..] == s;
      1 + m
  }

  /** getStatusId: the digits after the first `/status/` that is followed by a digit. */
  function StatusId(s: string): (r: Option<string>)
    ensures r.Some? ==> r.value != "" && AllDigits(r.value)
  {
    var k := StatusIndex(s);
    if k < |s| then Some(Capture(s[k..])) else None
  }

  /** StatusId is absent exactly when the pattern matches nowhere. */
  lemma StatusIdNone(s: string)
    ensures StatusId(s).None? <==> forall k :: 0 <= k <= |s| ==> !StatusAt(s[k..])
  {
    var m := StatusIndex(s);
    if m < |s| {
      assert StatusAt(s[m..]);
    }
  }

  /** StatusId is the capture of the leftmost match. */
  lemma StatusIdLeftmost(s: string, k: nat)
    requires k <= |s| && StatusAt(s[k..])
    requires forall j :: 0 <= j < k ==> !StatusAt(s[j..])
    ensures StatusId(s) == Some(Capture(s[k..]))
  {
    var m := StatusIndex(s);
    assert !(m < k) && !(k < m);
  }

  /** Prepending text in which no match can start leaves StatusId unchanged. */
  lemma StatusIdAfterPrefix(q: string, h: string)
    requires forall j :: 0 <= j < |q| ==> !StatusAt((q + h)[j..])
    ensures StatusId(q + h) == StatusId(h)
  {
    var s := q + h;
    assert forall j :: |q| <= j <= |s| ==> s[j..] == h[j - |q|..];
    var m := StatusIndex(h);
    if m < |h| {
      StatusIdLeftmost(s, |q| + m);
    } else {
      StatusIdNone(h);
      assert forall k :: 0 <= k <= |s| ==> !StatusAt(s[k..]);
      StatusIdNone(s);
    }
  }

  /** No match of `\/status\/` or `\/intent\/` can start inside "https://x.com". */
  lemma OriginInert(h: string)
    ensures forall j :: 0 <= j < |XOrigin| ==> !StatusAt((XOrigin + h)[j..])
    ensures forall j :: 0 <= j < |XOrigin| ==> !OccursAt(XOrigin + h, "/status/", j)
    ensures forall j :: 0 <= j < |XOrigin| ==> !OccursAt(XOrigin + h, "/intent/", j)
  {
    var s := XOrigin + h;
    forall j | 0 <= j < |XOrigin|
      ensures !StatusAt(s[j..])
      ensures !OccursAt(s, "/status/", j) && !OccursAt(s, "/intent/", j)
    {
      assert s[j] == XOrigin[j];
      assert j + 1 < |XOrigin| ==> s[j + 1] == XOrigin[j + 1];
      if j == 6 || j == 7 {
        assert s[j + 1] == XOrigin[j + 1];
      } else {
        assert XOrigin[j] != '/';
      }
    }
  }

  /** Prepending text in which sub cannot start leaves Contains unchanged. */
  lemma ContainsAfterPrefix(q: string, h: string, sub: string)
    requires forall j :: 0 <= j < |q| ==> !OccursAt(q + h, sub, j)
    ensures Contains(q + h, sub) <==> Contains(h, sub)
  {
    var s := q + h;
    ContainsIff(s, sub);
    ContainsIff(h, sub);
    forall k: nat | k <= |h| ensures OccursAt(s, sub, |q| + k) <==> OccursAt(h, sub, k) {
      assert s[|q| + k..] == h[k..];
    }
    if Contains(s, sub) {
      var k: nat :| OccursAt(s, sub, k);
      assert k >= |q|;
      assert OccursAt(h, sub, k - |q|);
    }
    if Contains(h, sub) {
      var k: nat :| OccursAt(h, sub, k);
      assert OccursAt(s, sub, |q| + k);
    }
  }

  // ---------------------------------------------------------------
  // toAbsXUrl
  // ---------------------------------------------------------------

  predicate IsAbsolute(href: string) {
    StartsWith(href, "http://") || StartsWith(href, "https://")
  }

  /** toAbsXUrl: absolute URLs unchanged, "/"-rooted ones on https://x.com,
      anything else unchanged; null for an empty href. */
  function ToAbsXUrl(href: string): (r: Option<string>)
    ensures r.None? <==> href == ""
  {
    if href == "" then None
    else if IsAbsolute(href) then Some(href)
    else if StartsWith(href, "/") then Some(XOrigin + href)
    else Some(href)
  }

  /** toAbsXUrl keeps the status id, keeps the status and intent segments,
      yields an absolute URL for a rooted href, and is idempotent. */
  lemma ToAbsXUrlFaithful(href: string)
    requires href != ""
    ensures var url := ToAbsXUrl(href).value;
            && StatusId(url) == StatusId(href)
            && (Contains(url, "/status/") <==> Contains(href, "/status/"))
            && (Contains(url, "/intent/") <==> Contains(href, "/intent/"))
            && (IsAbsolute(href) || StartsWith(href, "/") ==> IsAbsolute(url))
            && ToAbsXUrl(url) == Some(url)
  {
    if !IsAbsolute(href) && StartsWith(href, "/") {
      OriginInert(href);
      StatusIdAfterPrefix(XOrigin, href);
      ContainsAfterPrefix(XOrigin, href, "/status/");
      ContainsAfterPrefix(XOrigin, href, "/intent/");
      assert StartsWith(XOrigin + href, "https://");
    }
  }
}
