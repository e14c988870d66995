/** The "go deeper" command of keyboard.js (goDeeper and its inner
    navigateToStatusLink) and the lookup of a tweet by its URL
    (findTweetByUrl) that focus restoration relies on.

    A tweet element is reduced to the hrefs of the links goDeeper queries,
    in document order. */
module Deeper {
  import opened Text
  import opened Routes

  /** The links of one tweet element that goDeeper looks at. */
  datatype TweetLinks = TweetLinks(
    mainHref: Option<string>,        // first `a[href*="/status/"]` wrapping a <time>
    quotedHref: Option<string>,      // the time link inside the quote container
    timeLinkHrefs: seq<string>,      // every status link wrapping a <time>
    statusLinkHrefs: seq<string>,    // every `a[href*="/status/"]`
    cardHref: Option<string>)        // the first link of a card wrapper

  /** The status id of the tweet itself, from its timestamp link. */
  function MainStatusId(links: TweetLinks): (r: Option<string>)
    ensures r.Some? ==> links.mainHref.Some? && links.mainHref.value != ""
  {
    if links.mainHref.Some? then StatusId(links.mainHref.value) else None
  }

  /** navigateToStatusLink: the URL to load for one candidate link, or None
      when the link has no status id, points at the focused tweet or the
      current page, or is an intent link. */
  function StatusLinkTarget(href: string, mainId: Option<string>, pageId: Option<string>): (r: Option<string>)
  {
    var id := StatusId(href);
    if id.None? then None
    else if id == mainId || id == pageId then None
    else if !Contains(href, "/status/") || Contains(href, "/intent/") then None
    else ToAbsXUrl(href)
  }

  /** The URL of the first candidate that navigateToStatusLink accepts. */
  function FirstTarget(hrefs: seq<string>, mainId: Option<string>, pageId: Option<string>): Option<string>
  {
    if |hrefs| == 0 then None
    else
      var t := StatusLinkTarget(hrefs[0], mainId, pageId);
      if t.Some? then t else FirstTarget(hrefs[1..], mainId, pageId)
  }

  /** FirstTarget is the target of the first accepted candidate, and every
      earlier candidate was refused. */
  lemma {:induction false} FirstTargetWitness(hrefs: seq<string>, mainId: Option<string>, pageId: Option<string>)
    returns (k: nat)
    requires FirstTarget(hrefs, mainId, pageId).Some?
    ensures k < |hrefs| && FirstTarget(hrefs, mainId, pageId) == StatusLinkTarget(hrefs[k], mainId, pageId)
    ensures forall j :: 0 <= j < k ==> StatusLinkTarget(hrefs[j], mainId, pageId).None?
  {
    if StatusLinkTarget(hrefs[0], mainId, pageId).Some? {
      k := 0;
    } else {
      var k' := FirstTargetWitness(hrefs[1..], mainId, pageId);
      k := k' + 1;
      assert forall j :: 1 <= j < k ==> hrefs[j] == hrefs[1..][j - 1];
    }
  }

  /** A candidate that is accepted after every earlier one was refused is
      the one goDeeper follows. */
  lemma {:induction false} FirstTargetIsFirst(hrefs: seq<string>, mainId: Option<string>, pageId: Option<string>, i: nat)
    requires i < |hrefs| && StatusLinkTarget(hrefs[i], mainId, pageId).Some?
    requires forall j :: 0 <= j < i ==> StatusLinkTarget(hrefs[j], mainId, pageId).None?
    ensures FirstTarget(hrefs, mainId, pageId) == StatusLinkTarget(hrefs[i], mainId, pageId)
  {
    if i > 0 {
      assert hrefs[1..][i - 1] == hrefs[i];
      assert forall j :: 0 <= j < i - 1 ==> hrefs[1..][j] == hrefs[j + 1];
      FirstTargetIsFirst(hrefs[1..], mainId, pageId, i - 1);
    }
  }

  /** With an accepted candidate present, some candidate is followed. */
  lemma {:induction false} FirstTargetFound(hrefs: seq<string>, mainId: Option<string>, pageId: Option<string>, i: nat)
    requires i < |hrefs| && StatusLinkTarget(hrefs[i], mainId, pageId).Some?
    ensures FirstTarget(hrefs, mainId, pageId).Some?
  {
    if StatusLinkTarget(hrefs[0], mainId, pageId).None? {
      assert i > 0 && hrefs[1..][i - 1] == hrefs[i];
      FirstTargetFound(hrefs[1..], mainId, pageId, i - 1);
    }
  }

  /** What goDeeper does. */
  datatype DeeperMove =
    | Stay                       // nothing to do
    | OpenTweet(url: string)     // step 1: open the focused tweet, remembering it
    | FollowLink(url: string)    // step 3: a quoted or embedded status
    | OpenExternal(url: string)  // step 3: an external link card

  /** An external card link: not on x.com or twitter.com. */
  predicate IsExternalCard(href: Option<string>) {
    href.Some? && href.value != "" && !Contains(href.value, "x.com") && !Contains(href.value, "twitter.com")
  }

  /** goDeeper for a focused tweet on the page whose path is pagePath.
      The final fallback of the source (open the tweet when no nested content
      was found) is not modelled: it runs only when the tweet has a status id,
      and step 1 or step 2 has already returned in that case. */
  function DeeperTarget(links: TweetLinks, pagePath: string): DeeperMove
  {
    var mainId := MainStatusId(links);
    var pageId := StatusId(pagePath);
    if mainId.Some? && mainId != pageId then OpenTweet(ToAbsXUrl(links.mainHref.value).value)
    else if mainId.Some? then Stay
    else if links.quotedHref.Some? && StatusLinkTarget(links.quotedHref.value, mainId, pageId).Some? then
      FollowLink(StatusLinkTarget(links.quotedHref.value, mainId, pageId).value)
    else if FirstTarget(links.timeLinkHrefs, mainId, pageId).Some? then
      FollowLink(FirstTarget(links.timeLinkHrefs, mainId, pageId).value)
    else if FirstTarget(links.statusLinkHrefs, mainId, pageId).Some? then
      FollowLink(FirstTarget(links.statusLinkHrefs, mainId, pageId).value)
    else if IsExternalCard(links.cardHref) then OpenExternal(links.cardHref.value)
    else Stay
  }

  /** The loop over candidate links in goDeeper. */
  method FindFirstTarget(hrefs: seq<string>, mainId: Option<string>, pageId: Option<string>) returns (r: Option<string>)
    ensures r == FirstTarget(hrefs, mainId, pageId)
  {
    var i := 0;
    while i < |hrefs|
      invariant 0 <= i <= |hrefs|
      invariant FirstTarget(hrefs[i..], mainId, pageId) == FirstTarget(hrefs, mainId, pageId)
    {
      var t := StatusLinkTarget(hrefs[i], mainId, pageId);
      if t.Some? {
        return t;
      }
      assert hrefs[i..][1..] == hrefs[i + 1..];
      i := i + 1;
    }
    return None;
  }

  /** goDeeper: step 1 opens the focused tweet, step 2 stays on its own page,
      step 3 tries the quoted tweet, the embedded time links, every status
      link and finally an external card. */
  method GoDeeper(links: TweetLinks, pagePath: string) returns (r: DeeperMove)
    ensures r == DeeperTarget(links, pagePath)
  {
    var mainId := MainStatusId(links);
    var pageId := StatusId(pagePath);
    if mainId.Some? && mainId != pageId {
      return OpenTweet(ToAbsXUrl(links.mainHref.value).value);
    }
    if mainId.Some? {
      return Stay;
    }
    if links.quotedHref.Some? {
      var t := StatusLinkTarget(links.quotedHref.value, mainId, pageId);
      if t.Some? {
        return FollowLink(t.value);
      }
    }
    var t := FindFirstTarget(links.timeLinkHrefs, mainId, pageId);
    if t.Some? {
      return FollowLink(t.value);
    }
    t := FindFirstTarget(links.statusLinkHrefs, mainId, pageId);
    if t.Some? {
      return FollowLink(t.value);
    }
    if IsExternalCard(links.cardHref) {
      return OpenExternal(links.cardHref.value);
    }
    return Stay;
  }

  /** An accepted candidate is a real status link to a different tweet. */
  lemma StatusLinkTargetSound(href: string, mainId: Option<string>, pageId: Option<string>)
    requires StatusLinkTarget(href, mainId, pageId).Some?
    ensures var url := StatusLinkTarget(href, mainId, pageId).value;
            && StatusId(url).Some? && StatusId(url) == StatusId(href)
            && StatusId(url) != mainId && StatusId(url) != pageId
            && Contains(url, "/status/") && !Contains(url, "/intent/")
  {
    ToAbsXUrlFaithful(href);
  }

  /** goDeeper never navigates to the page it is on: every status URL it
      loads carries a status id other than the current page's, and a link it
      follows is never an intent link. */
  lemma GoDeeperNeverNavigatesToSelf(links: TweetLinks, pagePath: string)
    ensures match DeeperTarget(links, pagePath)
      case OpenTweet(url) =>
        StatusId(url) == MainStatusId(links) && StatusId(url).Some? && StatusId(url) != StatusId(pagePath)
      case FollowLink(url) =>
        StatusId(url).Some? && StatusId(url) != StatusId(pagePath) && !Contains(url, "/intent/")
      case OpenExternal(url) => !Contains(url, "x.com") && !Contains(url, "twitter.com")
      case Stay => true
  {
    var mainId := MainStatusId(links);
    var pageId := StatusId(pagePath);
    if mainId.Some? && mainId != pageId {
      ToAbsXUrlFaithful(links.mainHref.value);
    } else if mainId.None? {
      if links.quotedHref.Some? && StatusLinkTarget(links.quotedHref.value, mainId, pageId).Some? {
        StatusLinkTargetSound(links.quotedHref.value, mainId, pageId);
      } else if FirstTarget(links.timeLinkHrefs, mainId, pageId).Some? {
        var k := FirstTargetWitness(links.timeLinkHrefs, mainId, pageId);
        StatusLinkTargetSound(links.timeLinkHrefs[k], mainId, pageId);
      } else if FirstTarget(links.statusLinkHrefs, mainId, pageId).Some? {
        var k := FirstTargetWitness(links.statusLinkHrefs, mainId, pageId);
        StatusLinkTargetSound(links.statusLinkHrefs[k], mainId, pageId);
      }
    }
  }

  /** Steps 1 and 2: a tweet with a status id is opened exactly when the page
      is not already its detail page, and otherwise nothing happens. */
  lemma GoDeeperOpensOnlyOtherTweets(links: TweetLinks, pagePath: string)
    requires MainStatusId(links).Some?
    ensures DeeperTarget(links, pagePath).OpenTweet? <==> MainStatusId(links) != StatusId(pagePath)
    ensures DeeperTarget(links, pagePath).Stay? <==> MainStatusId(links) == StatusId(pagePath)
  {
  }

  // ---------------------------------------------------------------
  // findTweetByUrl
  // ---------------------------------------------------------------

  /** The test findTweetByUrl applies to a tweet's permalink: a plain
      substring search for "/status/" followed by the id. */
  predicate MatchesAsWritten(href: string, id: string) {
    Contains(href, "/status/" + id)
  }

  /** The intended test: the permalink's own status id is the id. */
  predicate MatchesStatusId(href: string, id: string) {
    StatusId(href) == Some(id)
  }

  /** findTweetByUrl as written: the index of the first tweet whose
      permalink contains "/status/" + id. Tweets without a permalink are
      skipped. */
  method FindTweetByUrl(url: string, permalinks: seq<Option<string>>) returns (r: Option<nat>)
    ensures StatusId(url).None? ==> r.None?
    ensures r.Some? ==> r.value < |permalinks| && permalinks[r.value].Some?
                        && MatchesAsWritten(permalinks[r.value].value, StatusId(url).value)
    ensures StatusId(url).Some? ==>
              forall j :: 0 <= j < |permalinks| && (r.None? || j < r.value) && permalinks[j].Some?
                ==> !MatchesAsWritten(permalinks[j].value, StatusId(url).value)
  {
    var id := StatusId(url);
    if id.None? {
      return None;
    }
    var i := 0;
    while i < |permalinks|
      invariant 0 <= i <= |permalinks|
      invariant forall j :: 0 <= j < i && permalinks[j].Some? ==> !MatchesAsWritten(permalinks[j].value, id.value)
    {
      if permalinks[i].Some? && MatchesAsWritten(permalinks[i].value, id.value) {
        return Some(i);
      }
      i := i + 1;
    }
    return None;
  }

  /** findTweetByUrl with the intended test: the first tweet whose permalink
      has exactly the status id of url. */
  method FindTweetByStatusId(url: string, permalinks: seq<Option<string>>) returns (r: Option<nat>)
    ensures StatusId(url).None? ==> r.None?
    ensures r.Some? ==> r.value < |permalinks| && permalinks[r.value].Some?
                        && StatusId(permalinks[r.value].value) == StatusId(url)
    ensures StatusId(url).Some? ==>
              forall j :: 0 <= j < |permalinks| && (r.None? || j < r.value) && permalinks[j].Some?
                ==> StatusId(permalinks[j].value) != StatusId(url)
  {
    var id := StatusId(url);
    if id.None? {
      return None;
    }
    var i := 0;
    while i < |permalinks|
      invariant 0 <= i <= |permalinks|
      invariant forall j :: 0 <= j < i && permalinks[j].Some? ==> StatusId(permalinks[j].value) != id
    {
      if permalinks[i].Some? && MatchesStatusId(permalinks[i].value, id.value) {
        return Some(i);
      }
      i := i + 1;
    }
    return None;
  }

  /** The intended test only drops false positives of the written one. */
  lemma StatusIdMatchImpliesSubstring(href: string, id: string)
    requires MatchesStatusId(href, id)
    ensures MatchesAsWritten(href, id)
  {
    var k := StatusIndex(href);
    assert "/status/" + id <= href[k..];
    ContainsIff(href, "/status/" + id);
    assert OccursAt(href, "/status/" + id, k);
  }

  /** The written test confuses a status id with every longer id it
      prefixes: the permalink of status 123 is taken for status 12. */
  lemma PrefixIdCollision(id: string, more: string)
    requires id != "" && AllDigits(id) && more != "" && AllDigits(more)
    ensures MatchesAsWritten("/status/" + id + more, id)
    ensures !MatchesStatusId("/status/" + id + more, id)
    ensures MatchesStatusId("/status/" + id + more, id + more)
  {
    var s := "/status/" + id + more;
    assert s[..8] == "/status/" && s[8] == (id + more)[0];
    assert s[8..] == id + more;
    assert s[0..] == s;
    DigitRunAtLeast(id + more, |id + more|);
    assert (id + more)[..|id + more|] == id + more;
    assert s[8..8 + |id + more|] == id + more;
    assert Capture(s) == id + more;
    StatusIdLeftmost(s, 0);
    assert ("/status/" + id) <= s;
    assert Contains(s, "/status/" + id);
    assert |id + more| != |id|;
  }

  /** A concrete instance: status 12 against the permalink of status 123. */
  lemma PrefixIdCollisionExample()
    ensures MatchesAsWritten("/status/123", "12") && !MatchesStatusId("/status/123", "12")
  {
    assert "/status/123" == "/status/" + "12" + "3";
    PrefixIdCollision("12", "3");
  }
}
