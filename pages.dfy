/** Page-type classes and the bookmarks grid of content.js:
    updatePageClasses puts at most one page class on the body and tears the
    grid down when the bookmarks page is left, buildBookmarksGrid turns the
    bookmarked tweets into cards once per visit, and extractTweetData reads
    one tweet into a record without ever failing. */
module Pages {
  import opened Text
  import opened Routes

  const BookmarksPath: string := "/i/bookmarks"

  const BookmarksClass: string := "betterui-bookmarks-page"
  const TweetClass: string := "betterui-tweet-page"
  const MediaClass: string := "betterui-media-page"
  const GridActiveClass: string := "betterui-grid-active"

  /** The four classes updatePageClasses removes first. */
  const PageClassNames: set<string> := {BookmarksClass, TweetClass, MediaClass, GridActiveClass}

  datatype PageKind = OtherPage | BookmarksPage | TweetPage | MediaPage

  /** The page kind, tested in the source's order: the exact bookmarks path,
      then `^\/[a-zA-Z0-9_]+\/status\/\d+`, then
      `^\/[a-zA-Z0-9_]+\/(media|likes|photo|video)`. */
  function KindOf(path: string): PageKind {
    if path == BookmarksPath then BookmarksPage
    else if HandleThen(path, StatusPage) then TweetPage
    else if HandleThen(path, MediaSubpage) then MediaPage
    else OtherPage
  }

  function ClassOf(kind: PageKind): set<string> {
    match kind
    case OtherPage => {}
    case BookmarksPage => {BookmarksClass}
    case TweetPage => {TweetClass}
    case MediaPage => {MediaClass}
  }

  /** The body classes after updatePageClasses. */
  function ClassesAfter(classes: set<string>, path: string): set<string> {
    (classes - PageClassNames) + ClassOf(KindOf(path))
  }

  /** At most one page class is left, the grid class is gone, every other
      class is kept, and a second update changes nothing. */
  lemma ClassesAfterFacts(classes: set<string>, path: string)
    ensures var r := ClassesAfter(classes, path);
            && r * PageClassNames == ClassOf(KindOf(path))
            && |r * PageClassNames| <= 1
            && GridActiveClass !in r
            && (forall c :: c !in PageClassNames ==> (c in r <==> c in classes))
            && ClassesAfter(r, path) == r
  {
    var r := ClassesAfter(classes, path);
    assert r * PageClassNames == ClassOf(KindOf(path));
  }

  /** The bookmarks path has the handle "i" followed by "/bookmarks". */
  lemma BookmarksPathShape()
    ensures HandleLen(BookmarksPath) == 1 && BookmarksPath[2..] == "/bookmarks"
  {
    assert BookmarksPath == "/" + "i" + "/bookmarks";
    HandleOf("i", "/bookmarks");
  }

  /** Neither page pattern matches the bookmarks path. */
  lemma BookmarksMatchesNoPattern()
    ensures !HandleThen(BookmarksPath, StatusPage) && !HandleThen(BookmarksPath, MediaSubpage)
  {
    BookmarksPathShape();
    var t := BookmarksPath[2..];
    assert t[1] == 'b';
  }

  /** The tweet-page and media-page patterns exclude each other. */
  lemma PatternsExclusive(path: string)
    ensures !(HandleThen(path, StatusPage) && HandleThen(path, MediaSubpage))
  {
    if HandleThen(path, StatusPage) {
      var t := path[1 + HandleLen(path)..];
      assert t[1] == 's';
    }
  }

  /** Each page kind is exactly its pattern, whatever the order of the tests. */
  lemma KindIsPattern(path: string)
    ensures KindOf(path) == BookmarksPage <==> path == BookmarksPath
    ensures KindOf(path) == TweetPage <==> PatternMatches(path, StatusPage)
    ensures KindOf(path) == MediaPage <==> PatternMatches(path, MediaSubpage)
  {
    HandleThenMatchesPattern(path, StatusPage);
    HandleThenMatchesPattern(path, MediaSubpage);
    BookmarksMatchesNoPattern();
    PatternsExclusive(path);
  }

  /** A handle followed by a status tail is a tweet page. */
  lemma HandleStatusIsTweetPage(u: string, suf: string)
    requires u != "" && AllWordChars(u) && TailMatches(StatusPage, suf)
    ensures KindOf("/" + u + suf) == TweetPage
  {
    HandleOf(u, suf);
    if "/" + u + suf == BookmarksPath {
      BookmarksPathShape();
      assert false;
    }
  }

  /** `/<handle>/status/<digits>` is a tweet page whatever follows. */
  lemma StatusPathIsTweetPage(u: string, d: string, rest: string)
    requires u != "" && AllWordChars(u) && d != "" && AllDigits(d)
    ensures KindOf("/" + u + "/status/" + d + rest) == TweetPage
  {
    var suf := "/status/" + d + rest;
    assert suf[8] == d[0];
    assert TailMatches(StatusPage, suf);
    assert "/" + u + "/status/" + d + rest == "/" + u + suf;
    HandleStatusIsTweetPage(u, suf);
  }

  // ---------------------------------------------------------------
  // extractTweetData
  // ---------------------------------------------------------------

  /** What extractTweetData reads from a tweet: each query's text or
      attribute, None when the element is missing. */
  datatype TweetNode = TweetNode(
    timeLinkHref: Option<string>,  // href of the anchor around the status time
    timeText: Option<string>,      // textContent of that time element
    userLinkText: Option<string>,  // textContent of the User-Name link
    avatarSrc: Option<string>,
    tweetText: Option<string>,
    hasPhoto: bool,
    hasVideo: bool)

  datatype TweetData = TweetData(url: string, username: string, avatar: string, time: string,
                                 text: string, hasMedia: bool)

  /** extractTweetData: every field falls back to '' except the username,
      which falls back to 'Unknown'. */
  function ExtractTweetData(t: TweetNode): (r: TweetData)
    ensures r.username != ""
    ensures r.hasMedia <==> t.hasPhoto || t.hasVideo
    ensures !Falsy(t.timeLinkHref) ==> r.url == t.timeLinkHref.value
    ensures Falsy(t.timeLinkHref) ==> r.url == ""
    ensures !Falsy(t.userLinkText) ==> r.username == t.userLinkText.value
    ensures Falsy(t.userLinkText) ==> r.username == "Unknown"
    ensures !Falsy(t.avatarSrc) ==> r.avatar == t.avatarSrc.value
    ensures Falsy(t.avatarSrc) ==> r.avatar == ""
    ensures !Falsy(t.timeText) ==> r.time == t.timeText.value
    ensures Falsy(t.timeText) ==> r.time == ""
    ensures !Falsy(t.tweetText) ==> r.text == t.tweetText.value
    ensures Falsy(t.tweetText) ==> r.text == ""
  {
    TweetData(OrElse(t.timeLinkHref, ""), OrElse(t.userLinkText, "Unknown"), OrElse(t.avatarSrc, ""),
              OrElse(t.timeText, ""), OrElse(t.tweetText, ""), t.hasPhoto || t.hasVideo)
  }

  // ---------------------------------------------------------------
  // The bookmarks grid
  // ---------------------------------------------------------------

  /** A grid card: its data-url, its data-index and what it shows. */
  datatype Card = Card(url: string, index: nat, data: TweetData)

  /** The cards for a list of bookmarks, in order. */
  function CardsFor(records: seq<TweetData>): (cards: seq<Card>)
    ensures |cards| == |records|
    ensures forall i :: 0 <= i < |cards| ==> cards[i] == Card(records[i].url, i, records[i])
  {
    seq(|records|, i requires 0 <= i < |records| => Card(records[i].url, i, records[i]))
  }

  /** The body classes, the grid-built flag and the grid element. */
  class PageView {
    var bodyClasses: set<string>
    var gridBuilt: bool
    var grid: Option<seq<Card>>

    /** The flag is set exactly while a grid is in the page. */
    ghost predicate Valid()
      reads this
    {
      gridBuilt <==> grid.Some?
    }

    constructor (classes: set<string>)
      ensures bodyClasses == classes && !gridBuilt && grid.None? && Valid()
    {
      bodyClasses := classes;
      gridBuilt := false;
      grid := None;
    }

    /** updatePageClasses; the result says whether a grid build is scheduled. */
    method UpdatePageClasses(path: string) returns (scheduleBuild: bool)
      requires Valid()
      modifies this
      ensures Valid()
      ensures bodyClasses == ClassesAfter(old(bodyClasses), path)
      ensures path != BookmarksPath ==> !gridBuilt && grid.None?
      ensures path == BookmarksPath ==> gridBuilt == old(gridBuilt) && grid == old(grid)
      ensures scheduleBuild <==> path == BookmarksPath
    {
      bodyClasses := bodyClasses - PageClassNames;
      if path != BookmarksPath {
        gridBuilt := false;
        grid := None;
      }
      var kind := KindOf(path);
      if kind == BookmarksPage {
        bodyClasses := bodyClasses + {BookmarksClass};
      } else if kind == TweetPage {
        bodyClasses := bodyClasses + {TweetClass};
      } else if kind == MediaPage {
        bodyClasses := bodyClasses + {MediaClass};
      }
      scheduleBuild := path == BookmarksPath;
    }

    /** buildBookmarksGrid over the tweets on the page; the result asks for
        a retry when no tweet has loaded yet. */
    method BuildBookmarksGrid(tweets: seq<TweetNode>, primaryColumn: bool) returns (retry: bool)
      requires Valid()
      modifies this
      ensures Valid()
      ensures retry <==> !old(gridBuilt) && |tweets| == 0
      ensures old(gridBuilt) || |tweets| == 0 || !primaryColumn ==>
                bodyClasses == old(bodyClasses) && gridBuilt == old(gridBuilt) && grid == old(grid)
      ensures !old(gridBuilt) && |tweets| > 0 && primaryColumn ==>
                && gridBuilt
                && grid == Some(CardsFor(seq(|tweets|, i requires 0 <= i < |tweets| => ExtractTweetData(tweets[i]))))
                && bodyClasses == old(bodyClasses) + {GridActiveClass}
    {
      if gridBuilt {
        return false;
      }
      if |tweets| == 0 {
        return true;
      }
      var bookmarks: seq<TweetData> := [];
      for i := 0 to |tweets|
        invariant bookmarks == seq(i, j requires 0 <= j < i => ExtractTweetData(tweets[j]))
      {
        bookmarks := bookmarks + [ExtractTweetData(tweets[i])];
      }
      var cards: seq<Card> := [];
      for i := 0 to |bookmarks|
        invariant |cards| == i
        invariant forall j :: 0 <= j < i ==> cards[j] == Card(bookmarks[j].url, j, bookmarks[j])
      {
        cards := cards + [Card(bookmarks[i].url, i, bookmarks[i])];
      }
      assert cards == CardsFor(bookmarks);
      if primaryColumn {
        grid := Some(cards);
        bodyClasses := bodyClasses + {GridActiveClass};
        gridBuilt := true;
      }
      return false;
    }
  }

  /** Every card opens the tweet it shows, and its data-index is its
      position in the grid. */
  lemma CardsMatchTweets(tweets: seq<TweetNode>, i: nat)
    requires i < |tweets|
    ensures var cards := CardsFor(seq(|tweets|, j requires 0 <= j < |tweets| => ExtractTweetData(tweets[j])));
            |cards| == |tweets| && cards[i].index == i
            && cards[i].url == OrElse(tweets[i].timeLinkHref, "")
            && (cards[i].data.hasMedia <==> tweets[i].hasPhoto || tweets[i].hasVideo)
  {
  }
}
