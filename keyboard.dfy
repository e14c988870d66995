/** The key handler of keyboard.js: the fixed precedence of handleKeyDown,
    the leader-chord machine (activateLeader, deactivateLeader, the leader
    binding table and its timer), the direct bindings, and the focus indices
    moved by navigateGrid, navigateMediaGrid and navigateTweets.

    The module-level `state` object is the class Controller; its abstract
    value is a KeyState, and every handler is specified by a function from
    the old KeyState (and the page it reads) to the new one. The DOM is
    reduced to a Page snapshot, and what the handlers ask the browser to do
    (navigation, clicks, scrolling) is returned as an Effect. */
module Keyboard {
  import opened Text
  import opened Routes
  import opened Deeper

  const LeaderKey: string := " "
  const MyProfile: string := "https://x.com/diegooprime"
  const BookmarksPath: string := "/i/bookmarks"
  const GridColumns: int := 5
  const FollowDebounceMs: int := 2000
  const ProfileSettleMs: int := 1000

  /** Identity of a DOM element. */
  type ElemId = nat
  /** Identity of a pending setTimeout. */
  type TimerId = nat

  /** The leader bindings: chord to "has an action"; "f" is the null
      placeholder that lets "ff" be typed. */
  const LeaderBindings: map<string, bool> :=
    map["ff" := true, "f" := false, "t" := true, "p" := true, "a" := true,
        "o" := true, "r" := true, "n" := true, "?" := true]

  /** `bindings.leader[buffer]` is a function. */
  predicate Fires(buffer: string) {
    buffer in LeaderBindings && LeaderBindings[buffer]
  }

  /** Some leader binding strictly extends the buffer. */
  predicate CouldExtend(buffer: string) {
    exists chord :: chord in LeaderBindings && buffer < chord
  }

  lemma LeaderChords()
    ensures LeaderBindings.Keys == {"ff", "f", "t", "p", "a", "o", "r", "n", "?"}
  {
  }

  // ---------------------------------------------------------------
  // The page a handler reads
  // ---------------------------------------------------------------

  /** A bounding rectangle, reduced to its vertical extent. */
  datatype Rect = Rect(top: int, bottom: int)

  datatype Item = Item(el: ElemId, rect: Rect)

  /** What the two follow-button searches of toggleFollow found. */
  datatype FollowButtons = FollowButtons(primaryColumn: bool, unfollow: bool, follow: bool)

  datatype Page = Page(
    path: string,                       // window.location.pathname
    now: int,                           // Date.now()
    innerHeight: int,
    attached: set<ElemId>,              // elements document.contains
    tweets: seq<Item>,                  // getTweets(), in document order
    tweetLinks: map<ElemId, TweetLinks>,
    media: seq<Item>,                   // getProfileMediaItems()
    grid: Option<seq<string>>,          // the bookmarks grid, by card data-url
    lightboxOpen: bool,
    buttons: FollowButtons)

  datatype KeyEvent = KeyEvent(key: string, meta: bool, ctrl: bool, shift: bool, typing: bool)

  /** What a handler asks of the browser. */
  datatype Effect =
    | NoEffect
    | LightboxPrev | LightboxNext | LightboxClose
    | Blur
    | Navigate(url: string)
    | Reload
    | OpenAllBookmarks
    | ToggleHelp
    | HistoryBack
    | OpenInNewTab(url: string)
    | ScrollToTop | ScrollToBottom
    | ScrollWithinTweet(down: bool)
    | ScrollTo(el: ElemId)
    | TweetCommand(key: string, el: ElemId)
    | ToggleMute
    | OpenMediaItem(el: ElemId)
    | ClickFollow | ClickUnfollow
    | Deep(move: DeeperMove)

  datatype Outcome = Outcome(prevented: bool, effect: Effect)

  // ---------------------------------------------------------------
  // The state object
  // ---------------------------------------------------------------

  datatype KeyState = KeyState(
    leaderActive: bool,
    leaderBuffer: string,
    leaderTimer: Option<TimerId>,
    pendingTimers: set<TimerId>,        // leader timers the event loop still holds
    nextTimer: TimerId,                 // the id the next setTimeout returns
    searchOpen: bool,
    composeOpen: bool,
    focusedTweet: Option<ElemId>,
    focusedMedia: Option<ElemId>,
    gridFocusIndex: int,
    mediaFocusIndex: int,
    navigatedFromStatusPage: bool,
    lastUrl: string,
    lastFocusedTweetUrl: Option<string>,
    profileEnteredAt: int,
    lastFollowAction: int)

  /** The invariant the handlers keep: leader mode and its timer go
      together, at most one leader timer is pending, an inactive leader has
      an empty buffer and an active one a buffer some chord extends, and the
      focus indices are -1 or an index. */
  ghost predicate Consistent(s: KeyState) {
    && (!s.leaderActive ==> s.leaderBuffer == "")
    && (s.leaderActive ==> CouldExtend(s.leaderBuffer))
    && (s.leaderActive <==> s.leaderTimer.Some?)
    && s.pendingTimers == (if s.leaderTimer.Some? then {s.leaderTimer.value} else {})
    && (forall t :: t in s.pendingTimers ==> t < s.nextTimer)
    && s.gridFocusIndex >= -1
    && s.mediaFocusIndex >= -1
    && (s.focusedMedia.None? <==> s.mediaFocusIndex == -1)
  }

  /** The state after init on the page at url with path path. */
  function Initial(url: string, path: string, now: int): (s: KeyState)
    ensures Consistent(s) && !s.leaderActive && s.pendingTimers == {}
    ensures s.profileEnteredAt == (if IsOnProfilePage(path) then now else 0)
  {
    KeyState(false, "", None, {}, 0, false, false, None, None, -1, -1, false, url, None,
             if IsOnProfilePage(path) then now else 0, 0)
  }

  // ---------------------------------------------------------------
  // Leader chords
  // ---------------------------------------------------------------

  /** activateLeader: empty buffer, previous timer cancelled, a new one armed. */
  function Activate(s: KeyState): KeyState {
    var pending := if s.leaderTimer.Some? then s.pendingTimers - {s.leaderTimer.value} else s.pendingTimers;
    s.(leaderActive := true, leaderBuffer := "", leaderTimer := Some(s.nextTimer),
       pendingTimers := pending + {s.nextTimer}, nextTimer := s.nextTimer + 1)
  }

  /** deactivateLeader: empty buffer, timer cancelled. */
  function Deactivate(s: KeyState): KeyState {
    s.(leaderActive := false, leaderBuffer := "", leaderTimer := None,
       pendingTimers := if s.leaderTimer.Some? then s.pendingTimers - {s.leaderTimer.value} else s.pendingTimers)
  }

  /** Leader timer t fires: a pending one runs deactivateLeader, a
      cancelled one never runs. */
  function Timeout(s: KeyState, t: TimerId): KeyState {
    if t in s.pendingTimers then
      var d := Deactivate(s);
      d.(pendingTimers := d.pendingTimers - {t})
    else s
  }

  datatype Change = Change(state: KeyState, effect: Effect)

  /** The action bound to a chord that fires. */
  function ChordAction(s: KeyState, chord: string, path: string): Change {
    if chord == "ff" then Change(s.(searchOpen := true), NoEffect)
    else if chord == "t" then Change(s.(composeOpen := true), NoEffect)
    else if chord == "p" then Change(s, Navigate(MyProfile))
    else if chord == "a" then
      Change(s, if path == BookmarksPath then OpenAllBookmarks else Navigate("https://x.com/i/bookmarks"))
    else if chord == "o" then Change(s, if path == BookmarksPath then OpenAllBookmarks else NoEffect)
    else if chord == "r" then Change(s, if path == "/home" then Reload else Navigate("https://x.com/home"))
    else if chord == "n" then Change(s, Navigate("https://x.com/i/notifications"))
    else if chord == "?" then Change(s, ToggleHelp)
    else Change(s, NoEffect)
  }

  /** A completed chord: its action runs, then leader mode ends. */
  function FireChord(s: KeyState, chord: string, path: string): Change {
    var c := ChordAction(s, chord, path);
    Change(Deactivate(c.state), c.effect)
  }

  /** A key while leader mode is active: buffered, then fired, kept or dropped. */
  function LeaderInput(s: KeyState, key: string, path: string): Change {
    var buffer := s.leaderBuffer + key;
    if Fires(buffer) then FireChord(s, buffer, path)
    else if CouldExtend(buffer) then Change(s.(leaderBuffer := buffer), NoEffect)
    else Change(Deactivate(s), NoEffect)
  }

  // ---------------------------------------------------------------
  // Focus
  // ---------------------------------------------------------------

  /** Math.max(0, Math.min(i, n - 1)) */
  function Clamp(i: int, n: int): (r: int)
    requires n > 0
    ensures 0 <= r < n
    ensures 0 <= i < n ==> r == i
    ensures i < 0 ==> r == 0
    ensures i >= n ==> r == n - 1
  {
    if i < 0 then 0 else if i > n - 1 then n - 1 else i
  }

  /** The visibility test of findFirstVisibleTweetIndex / findFirstVisibleMediaIndex. */
  predicate Visible(r: Rect, innerHeight: int) {
    r.bottom > 50 && r.top < innerHeight
  }

  /** Index of the first visible item, |items| when none. */
  function VisibleIndex(items: seq<Item>, innerHeight: int): (k: nat)
    ensures k <= |items|
    ensures k < |items| ==> Visible(items[k].rect, innerHeight)
    ensures forall j :: 0 <= j < k ==> !Visible(items[j].rect, innerHeight)
  {
    if |items| == 0 then 0
    else if Visible(items[0].rect, innerHeight) then 0
    else 1 + VisibleIndex(items[1..], innerHeight)
  }

  /** The first visible item, 0 when none is visible. */
  function FirstVisible(items: seq<Item>, innerHeight: int): (k: nat)
    ensures |items| > 0 ==> k < |items|
  {
    var k := VisibleIndex(items, innerHeight);
    if k < |items| then k else 0
  }

  /** Array.prototype.indexOf on element identity. */
  function IndexOf(items: seq<Item>, el: ElemId): (k: int)
    ensures -1 <= k < |items|
    ensures k >= 0 ==> items[k].el == el && forall j :: 0 <= j < k ==> items[j].el != el
    ensures k == -1 ==> forall j :: 0 <= j < |items| ==> items[j].el != el
  {
    if |items| == 0 then -1
    else if items[0].el == el then 0
    else
      var k := IndexOf(items[1..], el);
      if k == -1 then -1 else k + 1
  }

  /** getFocusedTweet: the focused tweet if it is still in the document. */
  function LiveTweet(s: KeyState, p: Page): Option<ElemId> {
    if s.focusedTweet.Some? && s.focusedTweet.value in p.attached then s.focusedTweet else None
  }

  predicate MediaLive(s: KeyState, p: Page) {
    s.focusedMedia.Some? && s.focusedMedia.value in p.attached
  }

  /** clearFocus: tweet, media and grid focus all dropped. */
  function Unfocused(s: KeyState): KeyState {
    s.(focusedTweet := None, focusedMedia := None, mediaFocusIndex := -1, gridFocusIndex := -1)
  }

  /** focusMediaItem: clearFocus, then the item becomes the media focus. */
  function FocusMedia(s: KeyState, el: ElemId, i: nat): KeyState {
    Unfocused(s).(focusedMedia := Some(el), mediaFocusIndex := i)
  }

  /** The decision of scrollWithinTweet: scroll inside a tweet taller than
      the viewport while its far edge is more than 30px out of view. */
  predicate ScrollsWithin(r: Rect, direction: int, innerHeight: int) {
    if r.bottom - r.top <= innerHeight - 40 then false
    else if direction > 0 then r.bottom > innerHeight + 30
    else r.top < -30
  }

  /** navigateTweets */
  function TweetStep(s: KeyState, direction: int, p: Page): Change {
    if |p.tweets| == 0 then Change(s, NoEffect)
    else
      var current := if LiveTweet(s, p).Some? then IndexOf(p.tweets, s.focusedTweet.value) else -1;
      if s.focusedTweet.Some? && current != -1 && ScrollsWithin(p.tweets[current].rect, direction, p.innerHeight) then
        Change(s, ScrollWithinTweet(direction > 0))
      else
        var target := if current == -1 then FirstVisible(p.tweets, p.innerHeight) else current + direction;
        var i := Clamp(target, |p.tweets|);
        Change(s.(focusedTweet := Some(p.tweets[i].el)), ScrollTo(p.tweets[i].el))
  }

  /** navigateMediaGrid */
  function MediaStep(s: KeyState, direction: int, p: Page): Change {
    if |p.media| == 0 then Change(s, NoEffect)
    else
      var found := if MediaLive(s, p) then IndexOf(p.media, s.focusedMedia.value) else -1;
      var current := if found == -1 then FirstVisible(p.media, p.innerHeight) else found;
      var i := Clamp(current + direction, |p.media|);
      Change(FocusMedia(s, p.media[i].el, i), ScrollTo(p.media[i].el))
  }

  /** navigateGrid over the cards of the bookmarks grid. */
  function GridStep(s: KeyState, delta: int, cards: seq<string>): KeyState {
    if |cards| == 0 then s
    else s.(gridFocusIndex := Clamp(if s.gridFocusIndex == -1 then 0 else s.gridFocusIndex + delta, |cards|))
  }

  predicate OnBookmarksGrid(p: Page) { p.path == BookmarksPath && p.grid.Some? }

  /** getGridCards */
  function GridCards(p: Page): seq<string> {
    if p.grid.Some? then p.grid.value else []
  }

  /** openFocusedBookmark */
  function OpenBookmark(index: int, cards: seq<string>): Effect {
    if 0 <= index < |cards| && cards[index] != "" then Navigate(cards[index]) else NoEffect
  }

  /** The links of a tweet element; an element without any has none. */
  function LinksOf(p: Page, el: ElemId): TweetLinks {
    if el in p.tweetLinks then p.tweetLinks[el] else TweetLinks(None, None, [], [], None)
  }

  /** toggleFollow: at most one click per 2000 ms, unfollow preferred. */
  function FollowStep(s: KeyState, p: Page): Change {
    if p.now - s.lastFollowAction < FollowDebounceMs then Change(s, NoEffect)
    else
      var b := p.buttons;
      Change(s.(lastFollowAction := p.now),
             if !b.primaryColumn then NoEffect
             else if b.unfollow then ClickUnfollow
             else if b.follow then ClickFollow
             else NoEffect)
  }

  /** goDeeper on the focused tweet; opening the tweet remembers its URL. */
  function DeeperChange(s: KeyState, p: Page, el: ElemId): Change {
    var move := DeeperTarget(LinksOf(p, el), p.path);
    Change(if move.OpenTweet? then s.(lastFocusedTweetUrl := Some(move.url)) else s, Deep(move))
  }

  /** handleEnterKey */
  function Enter(s: KeyState, p: Page): Change {
    if OnBookmarksGrid(p) then Change(s, OpenBookmark(s.gridFocusIndex, GridCards(p)))
    else if IsOnProfileMediaGrid(p.path) then
      if MediaLive(s, p) then Change(s, OpenMediaItem(s.focusedMedia.value))
      else if |p.media| > 0 then
        var i := FirstVisible(p.media, p.innerHeight);
        Change(FocusMedia(s, p.media[i].el, i), ScrollTo(p.media[i].el))
      else Change(s, NoEffect)
    else if LiveTweet(s, p).Some? then DeeperChange(s, p, LiveTweet(s, p).value)
    else if IsOnProfilePage(p.path) then
      if p.now - s.profileEnteredAt > ProfileSettleMs then FollowStep(s, p) else Change(s, NoEffect)
    else Change(s, NoEffect)
  }

  /** handleEscape */
  function Escape(s: KeyState): KeyState {
    if s.searchOpen then s.(searchOpen := false)
    else if s.composeOpen then s.(composeOpen := false)
    else Unfocused(s)
  }

  /** goToAuthorProfile: remembers the tweet's permalink before leaving. */
  function AuthorProfile(s: KeyState, p: Page): Change {
    match LiveTweet(s, p)
    case None => Change(s, NoEffect)
    case Some(el) =>
      var main := LinksOf(p, el).mainHref;
      Change(if !Falsy(main) then s.(lastFocusedTweetUrl := main) else s, TweetCommand("Tab", el))
  }

  /** An action on the focused tweet, skipped when none is live. */
  function TweetAction(s: KeyState, p: Page, key: string): Effect {
    match LiveTweet(s, p)
    case None => NoEffect
    case Some(el) => TweetCommand(key, el)
  }

  /** openTweetInNewTab */
  function NewTab(s: KeyState, p: Page): Effect {
    match LiveTweet(s, p)
    case None => NoEffect
    case Some(el) =>
      var main := LinksOf(p, el).mainHref;
      if Falsy(main) then NoEffect else OpenInNewTab(main.value)
  }

  /** Keys 1..4: navigateProfileTab(0..3). */
  function ProfileTabEffect(path: string, tabIndex: int): Effect {
    match ProfileTabUrl(path, tabIndex)
    case None => NoEffect
    case Some(url) => Navigate(url)
  }

  predicate IsDirectKey(key: string) {
    key in {"j", "k", "h", "H", "l", "g", "G", "Enter", "Tab", "Escape",
            "c", "r", "b", "s", "m", "i", "x", "1", "2", "3", "4"}
  }

  /** The movement keys j, k, h, H and l: the grid on the bookmarks page,
      the thumbnails on a profile media grid, the timeline elsewhere. */
  function MoveKey(s: KeyState, key: string, p: Page): Change {
    if key == "j" || key == "k" then
      var d := if key == "j" then 1 else -1;
      if OnBookmarksGrid(p) then Change(GridStep(s, d * GridColumns, GridCards(p)), NoEffect)
      else if IsOnProfileMediaGrid(p.path) then MediaStep(s, d, p)
      else TweetStep(s, d, p)
    else if key == "h" || key == "H" then
      if OnBookmarksGrid(p) then Change(GridStep(s, -1, GridCards(p)), NoEffect)
      else Change(s.(navigatedFromStatusPage := StatusId(p.path).Some?), HistoryBack)
    else if OnBookmarksGrid(p) then Change(GridStep(s, 1, GridCards(p)), NoEffect)
    else Change(s, TweetAction(s, p, "l"))
  }

  /** The direct keys that change no state: G, m, 1 to 4 and the tweet actions. */
  function StatelessKey(s: KeyState, key: string, p: Page): Effect {
    if key == "G" then ScrollToBottom
    else if key == "m" then ToggleMute
    else if key == "1" then ProfileTabEffect(p.path, 0)
    else if key == "2" then ProfileTabEffect(p.path, 1)
    else if key == "3" then ProfileTabEffect(p.path, 2)
    else if key == "4" then ProfileTabEffect(p.path, 3)
    else TweetAction(s, p, key)
  }

  /** The direct bindings. */
  function Direct(s: KeyState, key: string, p: Page): Change {
    if key in {"j", "k", "h", "H", "l"} then MoveKey(s, key, p)
    else if key == "g" then Change(Unfocused(s), ScrollToTop)
    else if key == "Enter" then Enter(s, p)
    else if key == "Tab" then AuthorProfile(s, p)
    else if key == "Escape" then Change(Escape(s), NoEffect)
    else Change(s, StatelessKey(s, key, p))
  }

  function LightboxEffect(key: string): Effect {
    if key == "h" || key == "H" then LightboxPrev
    else if key == "l" || key == "L" then LightboxNext
    else if key == "Escape" then LightboxClose
    else NoEffect
  }

  datatype Reaction = Reaction(state: KeyState, outcome: Outcome)

  /** handleKeyDown: Cmd/Ctrl pass-through, search overlay, compose overlay,
      media lightbox, typing guard, leader activation, leader buffering,
      Shift+Enter, direct bindings. */
  function Step(s: KeyState, e: KeyEvent, p: Page): Reaction {
    if e.meta || e.ctrl then Reaction(s, Outcome(false, NoEffect))
    else if s.searchOpen then
      if e.key == "Escape" then Reaction(s.(searchOpen := false), Outcome(true, NoEffect))
      else Reaction(s, Outcome(false, NoEffect))
    else if s.composeOpen then
      if e.key == "Escape" then Reaction(s.(composeOpen := false), Outcome(true, NoEffect))
      else Reaction(s, Outcome(false, NoEffect))
    else if p.lightboxOpen then Reaction(s, Outcome(true, LightboxEffect(e.key)))
    else if e.typing then
      if e.key == "Escape" then Reaction(s, Outcome(true, Blur))
      else Reaction(s, Outcome(false, NoEffect))
    else if e.key == LeaderKey && !s.leaderActive then Reaction(Activate(s), Outcome(true, NoEffect))
    else if s.leaderActive then
      var c := LeaderInput(s, e.key, p.path);
      Reaction(c.state, Outcome(true, c.effect))
    else if e.key == "Enter" && e.shift then Reaction(s, Outcome(true, NewTab(s, p)))
    else if IsDirectKey(e.key) then
      var c := Direct(s, e.key, p);
      Reaction(c.state, Outcome(true, c.effect))
    else Reaction(s, Outcome(false, NoEffect))
  }

  /** The synchronous part of the URL observer: remember the status page
      being entered, note leaving one, restart the profile clock, clear focus. */
  function UrlChanged(s: KeyState, href: string, path: string, now: int): KeyState {
    if href == s.lastUrl then s
    else Moved(s, href, now, StatusId(s.lastUrl).Some?, StatusId(path).Some?, IsOnProfilePage(path))
  }

  /** The state after moving to href, given whether the old and the new
      location are status pages and whether the new one is a profile page. */
  function Moved(s: KeyState, href: string, now: int, wasStatus: bool, isStatus: bool, onProfile: bool): KeyState {
    Unfocused(s.(lastFocusedTweetUrl := if !wasStatus && isStatus then Some(href) else s.lastFocusedTweetUrl,
                 navigatedFromStatusPage := s.navigatedFromStatusPage || (wasStatus && !isStatus),
                 lastUrl := href,
                 profileEnteredAt := if onProfile then now else s.profileEnteredAt))
  }

  /** shouldAutoFocus: status pages, the home timeline, the root and
      single-segment paths such as a bare profile. */
  predicate ShouldAutoFocus(path: string) {
    || StatusId(path).Some?
    || path == "/home"
    || path == "/"
    || (|path| >= 2 && path[0] == '/' && '/' !in path[1..])
  }

  /** The focus after the mutation observer ran over the attached elements. */
  function ForgetDetached(s: KeyState, attached: set<ElemId>): KeyState {
    s.(focusedTweet := if s.focusedTweet.Some? && s.focusedTweet.value in attached then s.focusedTweet else None)
  }

  /** The permalinks findTweetByUrl compares, tweet by tweet. */
  function Permalinks(p: Page): (r: seq<Option<string>>)
    ensures |r| == |p.tweets|
  {
    seq(|p.tweets|, i requires 0 <= i < |p.tweets| => LinksOf(p, p.tweets[i].el).mainHref)
  }

  // ---------------------------------------------------------------
  // The controller
  // ---------------------------------------------------------------

  class Controller {
    var leaderActive: bool
    var leaderBuffer: string
    var leaderTimer: Option<TimerId>
    var pendingTimers: set<TimerId>
    var nextTimer: TimerId
    var searchOpen: bool
    var composeOpen: bool
    var focusedTweet: Option<ElemId>
    var focusedMedia: Option<ElemId>
    var gridFocusIndex: int
    var mediaFocusIndex: int
    var navigatedFromStatusPage: bool
    var lastUrl: string
    var lastFocusedTweetUrl: Option<string>
    var profileEnteredAt: int
    var lastFollowAction: int

    function State(): KeyState
      reads this
    {
      KeyState(leaderActive, leaderBuffer, leaderTimer, pendingTimers, nextTimer, searchOpen,
               composeOpen, focusedTweet, focusedMedia, gridFocusIndex, mediaFocusIndex,
               navigatedFromStatusPage, lastUrl, lastFocusedTweetUrl, profileEnteredAt, lastFollowAction)
    }

    ghost predicate Valid()
      reads this
    {
      Consistent(State())
    }

    /** init */
    constructor (url: string, path: string, now: int)
      ensures State() == Initial(url, path, now) && Valid()
    {
      leaderActive, leaderBuffer, leaderTimer, pendingTimers, nextTimer := false, "", None, {}, 0;
      searchOpen, composeOpen := false, false;
      focusedTweet, focusedMedia, gridFocusIndex, mediaFocusIndex := None, None, -1, -1;
      navigatedFromStatusPage, lastUrl, lastFocusedTweetUrl := false, url, None;
      profileEnteredAt := if IsOnProfilePage(path) then now else 0;
      lastFollowAction := 0;
    }

    method ActivateLeader()
      modifies this
      ensures State() == Activate(old(State()))
    {
      leaderActive := true;
      leaderBuffer := "";
      if leaderTimer.Some? {
        pendingTimers := pendingTimers - {leaderTimer.value};
      }
      leaderTimer := Some(nextTimer);
      pendingTimers := pendingTimers + {nextTimer};
      nextTimer := nextTimer + 1;
    }

    method DeactivateLeader()
      modifies this
      ensures State() == Deactivate(old(State()))
    {
      leaderActive := false;
      leaderBuffer := "";
      if leaderTimer.Some? {
        pendingTimers := pendingTimers - {leaderTimer.value};
        leaderTimer := None;
      }
    }

    /** The callback of leader timer t. */
    method LeaderTimeout(t: TimerId)
      modifies this
      ensures State() == Timeout(old(State()), t)
    {
      if t in pendingTimers {
        DeactivateLeader();
        pendingTimers := pendingTimers - {t};
      }
    }

    method ClearFocus()
      modifies this
      ensures State() == Unfocused(old(State()))
    {
      focusedTweet := None;
      mediaFocusIndex := -1;
      focusedMedia := None;
      gridFocusIndex := -1;
    }

    method FocusMediaItem(el: ElemId, i: nat)
      modifies this
      ensures State() == FocusMedia(old(State()), el, i)
    {
      ClearFocus();
      focusedMedia := Some(el);
      mediaFocusIndex := i;
    }

    method NavigateGrid(delta: int, cards: seq<string>)
      modifies this
      ensures State() == GridStep(old(State()), delta, cards)
    {
      if |cards| == 0 {
        return;
      }
      if gridFocusIndex == -1 {
        gridFocusIndex := 0;
      } else {
        gridFocusIndex := gridFocusIndex + delta;
      }
      gridFocusIndex := Clamp(gridFocusIndex, |cards|);
    }

    method NavigateMediaGrid(direction: int, p: Page) returns (effect: Effect)
      modifies this
      ensures State() == MediaStep(old(State()), direction, p).state
      ensures effect == MediaStep(old(State()), direction, p).effect
    {
      var items := p.media;
      if |items| == 0 {
        return NoEffect;
      }
      var current := -1;
      if focusedMedia.Some? && focusedMedia.value in p.attached {
        current := IndexOf(items, focusedMedia.value);
      }
      if current == -1 {
        current := FindFirstVisibleIndex(items, p.innerHeight);
      }
      var i := Clamp(current + direction, |items|);
      FocusMediaItem(items[i].el, i);
      return ScrollTo(items[i].el);
    }

    method NavigateTweets(direction: int, p: Page) returns (effect: Effect)
      modifies this
      ensures State() == TweetStep(old(State()), direction, p).state
      ensures effect == TweetStep(old(State()), direction, p).effect
    {
      var tweets := p.tweets;
      if |tweets| == 0 {
        return NoEffect;
      }
      var current := -1;
      if focusedTweet.Some? && focusedTweet.value in p.attached {
        current := IndexOf(tweets, focusedTweet.value);
      }
      if focusedTweet.Some? && current != -1 && ScrollsWithin(tweets[current].rect, direction, p.innerHeight) {
        return ScrollWithinTweet(direction > 0);
      }
      var target;
      if current == -1 {
        target := FindFirstVisibleIndex(tweets, p.innerHeight);
      } else {
        target := current + direction;
      }
      var i := Clamp(target, |tweets|);
      focusedTweet := Some(tweets[i].el);
      return ScrollTo(tweets[i].el);
    }

    method ToggleFollow(p: Page) returns (effect: Effect)
      modifies this
      ensures State() == FollowStep(old(State()), p).state
      ensures effect == FollowStep(old(State()), p).effect
    {
      if p.now - lastFollowAction < FollowDebounceMs {
        return NoEffect;
      }
      lastFollowAction := p.now;
      var b := p.buttons;
      if !b.primaryColumn {
        return NoEffect;
      }
      if b.unfollow {
        return ClickUnfollow;
      } else if b.follow {
        return ClickFollow;
      }
      return NoEffect;
    }

    method HandleEnterKey(p: Page) returns (effect: Effect)
      modifies this
      ensures State() == Enter(old(State()), p).state
      ensures effect == Enter(old(State()), p).effect
    {
      if OnBookmarksGrid(p) {
        return OpenBookmark(gridFocusIndex, GridCards(p));
      }
      if IsOnProfileMediaGrid(p.path) {
        if focusedMedia.Some? && focusedMedia.value in p.attached {
          return OpenMediaItem(focusedMedia.value);
        }
        if |p.media| > 0 {
          var i := FindFirstVisibleIndex(p.media, p.innerHeight);
          FocusMediaItem(p.media[i].el, i);
          return ScrollTo(p.media[i].el);
        }
        return NoEffect;
      }
      if focusedTweet.Some? && focusedTweet.value in p.attached {
        var move := GoDeeper(LinksOf(p, focusedTweet.value), p.path);
        if move.OpenTweet? {
          lastFocusedTweetUrl := Some(move.url);
        }
        return Deep(move);
      }
      if IsOnProfilePage(p.path) {
        if p.now - profileEnteredAt > ProfileSettleMs {
          effect := ToggleFollow(p);
          return;
        }
        return NoEffect;
      }
      return NoEffect;
    }

    method HandleDirect(key: string, p: Page) returns (effect: Effect)
      modifies this
      ensures State() == Direct(old(State()), key, p).state
      ensures effect == Direct(old(State()), key, p).effect
    {
      if key in {"j", "k", "h", "H", "l"} {
        effect := HandleMoveKey(key, p);
      } else if key == "g" {
        ClearFocus();
        return ScrollToTop;
      } else if key == "Enter" {
        effect := HandleEnterKey(p);
      } else if key == "Tab" {
        effect := GoToAuthorProfile(p);
      } else if key == "Escape" {
        HandleEscape();
        return NoEffect;
      } else {
        return StatelessKey(State(), key, p);
      }
    }

    method HandleMoveKey(key: string, p: Page) returns (effect: Effect)
      modifies this
      ensures State() == MoveKey(old(State()), key, p).state
      ensures effect == MoveKey(old(State()), key, p).effect
    {
      if key == "j" || key == "k" {
        var d := if key == "j" then 1 else -1;
        if OnBookmarksGrid(p) {
          NavigateGrid(d * GridColumns, GridCards(p));
          return NoEffect;
        } else if IsOnProfileMediaGrid(p.path) {
          effect := NavigateMediaGrid(d, p);
        } else {
          effect := NavigateTweets(d, p);
        }
      } else if key == "h" || key == "H" {
        if OnBookmarksGrid(p) {
          NavigateGrid(-1, GridCards(p));
          return NoEffect;
        }
        GoBack(StatusId(p.path).Some?);
        return HistoryBack;
      } else if OnBookmarksGrid(p) {
        NavigateGrid(1, GridCards(p));
        return NoEffect;
      } else {
        return TweetAction(State(), p, "l");
      }
    }

    /** goBack: remembers whether a status page is being left. */
    method GoBack(fromStatusPage: bool)
      modifies this
      ensures State() == old(State()).(navigatedFromStatusPage := fromStatusPage)
    {
      navigatedFromStatusPage := fromStatusPage;
    }

    /** goToAuthorProfile */
    method GoToAuthorProfile(p: Page) returns (effect: Effect)
      modifies this
      ensures State() == AuthorProfile(old(State()), p).state
      ensures effect == AuthorProfile(old(State()), p).effect
    {
      if focusedTweet.Some? && focusedTweet.value in p.attached {
        var el := focusedTweet.value;
        var main := LinksOf(p, el).mainHref;
        if !Falsy(main) {
          lastFocusedTweetUrl := main;
        }
        return TweetCommand("Tab", el);
      }
      return NoEffect;
    }

    /** handleEscape */
    method HandleEscape()
      modifies this
      ensures State() == Escape(old(State()))
    {
      if searchOpen {
        searchOpen := false;
      } else if composeOpen {
        composeOpen := false;
      } else {
        ClearFocus();
      }
    }

    /** A key while leader mode is active: buffer it, then run the chord's
        action and leave leader mode, keep waiting, or leave leader mode. */
    method HandleLeaderKey(key: string, path: string) returns (effect: Effect)
      modifies this
      ensures State() == LeaderInput(old(State()), key, path).state
      ensures effect == LeaderInput(old(State()), key, path).effect
    {
      var buffer := leaderBuffer + key;
      if Fires(buffer) {
        effect := RunChord(buffer, path);
      } else if CouldExtend(buffer) {
        leaderBuffer := buffer;
        return NoEffect;
      } else {
        DeactivateLeader();
        return NoEffect;
      }
    }

    /** Runs the action bound to a chord and leaves leader mode. */
    method RunChord(chord: string, path: string) returns (effect: Effect)
      modifies this
      ensures State() == FireChord(old(State()), chord, path).state
      ensures effect == FireChord(old(State()), chord, path).effect
    {
      var c := ChordAction(State(), chord, path);
      searchOpen, composeOpen := c.state.searchOpen, c.state.composeOpen;
      DeactivateLeader();
      return c.effect;
    }

    /** handleKeyDown */
    method HandleKeyDown(e: KeyEvent, p: Page) returns (outcome: Outcome)
      modifies this
      ensures State() == Step(old(State()), e, p).state
      ensures outcome == Step(old(State()), e, p).outcome
    {
      if e.meta || e.ctrl {
        return Outcome(false, NoEffect);
      }
      if searchOpen {
        if e.key == "Escape" {
          searchOpen := false;
          return Outcome(true, NoEffect);
        }
        return Outcome(false, NoEffect);
      }
      if composeOpen {
        if e.key == "Escape" {
          composeOpen := false;
          return Outcome(true, NoEffect);
        }
        return Outcome(false, NoEffect);
      }
      if p.lightboxOpen {
        return Outcome(true, LightboxEffect(e.key));
      }
      if e.typing {
        if e.key == "Escape" {
          return Outcome(true, Blur);
        }
        return Outcome(false, NoEffect);
      }
      if e.key == LeaderKey && !leaderActive {
        ActivateLeader();
        return Outcome(true, NoEffect);
      }
      if leaderActive {
        var effect := HandleLeaderKey(e.key, p.path);
        return Outcome(true, effect);
      }
      if e.key == "Enter" && e.shift {
        return Outcome(true, NewTab(State(), p));
      }
      if IsDirectKey(e.key) {
        var effect := HandleDirect(e.key, p);
        return Outcome(true, effect);
      }
      return Outcome(false, NoEffect);
    }

    /** The synchronous part of the URL observer. */
    method OnUrlChange(href: string, path: string, now: int)
      modifies this
      ensures State() == UrlChanged(old(State()), href, path, now)
    {
      if href == lastUrl {
        return;
      }
      EnterLocation(href, now, StatusId(lastUrl).Some?, StatusId(path).Some?, IsOnProfilePage(path));
    }

    /** The state updates of the URL observer once the kind of the old and
        the new location is known. */
    method EnterLocation(href: string, now: int, wasStatus: bool, isStatus: bool, onProfile: bool)
      modifies this
      ensures State() == Moved(old(State()), href, now, wasStatus, isStatus, onProfile)
    {
      if !wasStatus && isStatus {
        lastFocusedTweetUrl := Some(href);
      }
      if wasStatus && !isStatus {
        navigatedFromStatusPage := true;
      }
      lastUrl := href;
      if onProfile {
        profileEnteredAt := now;
      }
      ClearFocus();
    }

    /** One attempt of autoFocusTweet: the first tweet, when there is one. */
    method AttemptAutoFocus(p: Page) returns (focused: bool)
      modifies this
      ensures focused <==> |p.tweets| > 0
      ensures State() == if focused then old(State()).(focusedTweet := Some(p.tweets[0].el)) else old(State())
    {
      if |p.tweets| == 0 {
        return false;
      }
      focusedTweet := Some(p.tweets[0].el);
      return true;
    }

    /** The mutation observer that forgets a focused tweet once it leaves
        the document. */
    method DropDetachedFocus(attached: set<ElemId>)
      modifies this
      ensures State() == ForgetDetached(old(State()), attached)
    {
      if focusedTweet.Some? && focusedTweet.value !in attached {
        focusedTweet := None;
      }
    }

    /** restoreFocusToLastTweet, with the tweet looked up by its exact status id. */
    method RestoreFocusToLastTweet(p: Page) returns (restored: bool)
      modifies this
      ensures restored <==> !Falsy(lastFocusedTweetUrl) && StatusId(lastFocusedTweetUrl.value).Some?
                            && exists i :: 0 <= i < |p.tweets| && Permalinks(p)[i].Some?
                                           && StatusId(Permalinks(p)[i].value) == StatusId(lastFocusedTweetUrl.value)
      ensures restored ==> exists i :: 0 <= i < |p.tweets| && focusedTweet == Some(p.tweets[i].el)
                             && Permalinks(p)[i].Some?
                             && StatusId(Permalinks(p)[i].value) == StatusId(lastFocusedTweetUrl.value)
                             && forall j :: 0 <= j < i && Permalinks(p)[j].Some? ==>
                                  StatusId(Permalinks(p)[j].value) != StatusId(lastFocusedTweetUrl.value)
      ensures !restored ==> State() == old(State())
      ensures State() == old(State()).(focusedTweet := focusedTweet)
    {
      if Falsy(lastFocusedTweetUrl) {
        return false;
      }
      var found := FindTweetByStatusId(lastFocusedTweetUrl.value, Permalinks(p));
      if found.None? {
        return false;
      }
      focusedTweet := Some(p.tweets[found.value].el);
      return true;
    }
  }

  /** findFirstVisibleTweetIndex and findFirstVisibleMediaIndex. */
  method FindFirstVisibleIndex(items: seq<Item>, innerHeight: int) returns (k: nat)
    ensures k == FirstVisible(items, innerHeight)
    ensures |items| > 0 ==> k < |items|
  {
    var i := 0;
    while i < |items|
      invariant 0 <= i <= |items|
      invariant forall j :: 0 <= j < i ==> !Visible(items[j].rect, innerHeight)
    {
      if items[i].rect.bottom > 50 && items[i].rect.top < innerHeight {
        ghost var v := VisibleIndex(items, innerHeight);
        assert !(v < i) && !(i < v);
        return i;
      }
      i := i + 1;
    }
    ghost var v := VisibleIndex(items, innerHeight);
    assert !(v < |items|);
    return 0;
  }
}
