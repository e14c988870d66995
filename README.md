# BetterUI keyboard, page and stats core in Dafny

BetterUI is a browser extension that adds vim-style keyboard control to x.com. This project models three of its parts and proves properties about them.

- **keyboard.js**:
  - how handleKeyDown ranks a key event: Cmd/Ctrl pass-through, then the search overlay, the compose overlay, the media lightbox, the typing guard, Space as leader key, leader buffering, Shift+Enter and the direct bindings;
  - the leader-chord machine and its timer;
  - the clamped focus indices of the bookmarks grid, the profile media grid and the timeline;
  - the URL-path predicates;
  - the "go deeper" link guard;
  - the follow debounce;
  - the URL observer that remembers status pages.
- **content.js**:
  - the per-cell ad verdict and check counter of removeAds;
  - the page classes set by updatePageClasses;
  - the bookmarks grid lifecycle;
  - extractTweetData.
- **stats.js**:
  - the session clock;
  - the 24-hour and 7-day windows;
  - deduplicated tracking of scrolled and engaged tweets;
  - seven-day pruning;
  - the trimmed snapshot saveStats writes;
  - formatTime and getTweetId.

The extension keeps its state in module-level objects, so each of them becomes a class:

| Class | What it holds |
|---|---|
| `Keyboard.Controller` | keyboard.js `state` |
| `Pages.PageView` | the body classes, the `bookmarksGridBuilt` flag and the grid |
| `Stats.Tracker` | stats.js `state` |

Each handler is a method, and its `ensures` ties the new state to a specification function of the old state. For example, `Keyboard.Controller.HandleKeyDown` is tied to `Keyboard.Step`. The lemmas are then proved about those functions.

The DOM appears only as value records:
- a `Page` snapshot: the path, the clock, rectangles reduced to top and bottom, which elements are attached, the tweet links and the follow buttons;
- a `Cell` dataset;
- a `TweetNode` and a `TweetElement`.

What a handler asks of the browser comes back as an `Effect`: navigate, click, scroll, open a tab.

Files:

| File | Module | Contents |
|---|---|---|
| text.dfy | `Text` | `String.prototype.includes`, digit and word-character runs, `trim`/`toLowerCase`, decimal rendering |
| routes.dfy | `Routes` | the path regular expressions, getStatusId, toAbsXUrl |
| deeper.dfy | `Deeper` | goDeeper and findTweetByUrl |
| keyboard.dfy | `Keyboard` | the state machine and the controller class |
| keyboard_facts.dfy | `KeyboardFacts` | the properties of the key handler |
| ads.dfy | `Ads` | removeAds |
| pages.dfy | `Pages` | page classes, the bookmarks grid, extractTweetData |
| stats.dfy | `Stats` | stats.js |

## Model

| member | source | states |
|---|---|---|
| Keyboard.LeaderChords | keyboard.js:72-82 | The leader table has exactly the nine entries ff, f, t, p, a, o, r, n, ?. |
| Keyboard.Initial | keyboard.js:1841-1850 | init starts consistent: leader off, no timer. profileEnteredAt is stamped only on a profile page. |
| Keyboard.Clamp | keyboard.js:830 | `Math.max(0, Math.min(i, n-1))` lies in [0, n). It is the identity inside, 0 below and n-1 above. |
| Keyboard.VisibleIndex | keyboard.js:444-454 | Gives the first index whose rectangle has bottom > 50 and top < innerHeight; every earlier item fails that test. |
| Keyboard.FirstVisible | keyboard.js:586-595 | The first visible item, 0 when none; always a valid index of a non-empty list. |
| Keyboard.IndexOf | keyboard.js:362 | `indexOf` by element identity: the first position holding the element, or -1 exactly when it is absent. |
| Keyboard.Permalinks | keyboard.js:479-495 | One permalink per tweet on the page, in order. |
| Keyboard.FindFirstVisibleIndex | keyboard.js:444-454 | The index loop returns FirstVisible. |
| Keyboard.Controller.constructor | keyboard.js:8-35 | The state object starts as Initial and satisfies the invariant. |
| Keyboard.Controller.ActivateLeader | keyboard.js:197-210 | activateLeader empties the buffer, cancels the previous timer and arms one new timer. |
| Keyboard.Controller.DeactivateLeader | keyboard.js:212-220 | deactivateLeader empties the buffer and cancels the timer. |
| Keyboard.Controller.LeaderTimeout | keyboard.js:207-209 | A pending leader timer runs deactivateLeader; a cancelled one changes nothing. |
| Keyboard.Controller.ClearFocus | keyboard.js:456-470 | clearFocus drops the tweet, media and grid focus. |
| Keyboard.Controller.FocusMediaItem | keyboard.js:610-620 | focusMediaItem clears every focus, then focuses the item at its index. |
| Keyboard.Controller.NavigateGrid | keyboard.js:815-838 | navigateGrid produces the GridStep state. |
| Keyboard.Controller.NavigateMediaGrid | keyboard.js:622-640 | navigateMediaGrid produces the MediaStep state and scroll effect. |
| Keyboard.Controller.NavigateTweets | keyboard.js:357-401 | navigateTweets produces the TweetStep state, including the scroll-within-tweet decision (keyboard.js:404-442). |
| Keyboard.Controller.ToggleFollow | keyboard.js:691-747 | toggleFollow produces the FollowStep state and click. |
| Keyboard.Controller.HandleEnterKey | keyboard.js:653-689 | handleEnterKey follows the Enter specification, in order: bookmarks grid, then media grid, then the focused tweet (goDeeper), then the profile follow toggle. |
| Keyboard.Controller.HandleDirect | keyboard.js:45-69 | The direct binding table produces the Direct state and effect. |
| Keyboard.Controller.HandleMoveKey | keyboard.js:46-50 | j/k/h/H/l act on the grid on the bookmarks page, on the media grid on a media tab, and on the timeline or history otherwise. |
| Keyboard.Controller.GoBack | keyboard.js:1171-1185 | goBack records whether a status page is being left and changes nothing else. |
| Keyboard.Controller.GoToAuthorProfile | keyboard.js:1462-1477 | Remembers the focused tweet's permalink before opening its author; with no live focus it does nothing. |
| Keyboard.Controller.HandleEscape | keyboard.js:237-245 | Escape closes the search overlay, else the compose overlay, else clears the focus. |
| Keyboard.Controller.HandleLeaderKey | keyboard.js:152-176 | A buffered key fires a bound chord, waits on a strict prefix, or ends leader mode. |
| Keyboard.Controller.RunChord | keyboard.js:160-164 | A chord's action runs, then leader mode ends. |
| Keyboard.Controller.HandleKeyDown | keyboard.js:89-195 | handleKeyDown applies the Step precedence to the state and returns whether the event was prevented, with its effect. |
| Keyboard.Controller.OnUrlChange | keyboard.js:1921-1944 | A URL change records status-page entry and exit, restarts the profile clock and clears focus; the same URL changes nothing. |
| Keyboard.Controller.EnterLocation | keyboard.js:1923-1944 | The URL observer's updates, given the kinds of the old and new location. |
| Keyboard.Controller.AttemptAutoFocus | keyboard.js:1808-1821 | attemptFocus focuses the first tweet exactly when there is one, and changes nothing otherwise. |
| Keyboard.Controller.DropDetachedFocus | keyboard.js:1901-1905 | The mutation observer forgets a focused tweet that left the document. |
| Keyboard.Controller.RestoreFocusToLastTweet | keyboard.js:519-528 | Returns true exactly when a URL is remembered and some tweet's permalink carries its status id; it then focuses the first such tweet. Otherwise nothing changes, and nothing but the focus ever changes. |
| KeyboardFacts.ChordsAreChordChars | keyboard.js:72-82 | Every chord is made of the characters f t p a o r n ?. |
| KeyboardFacts.EmptyBufferExtends | keyboard.js:72-82 | An empty buffer is a strict prefix of some chord. |
| KeyboardFacts.AtMostOneTimer | keyboard.js:197-220 | In a consistent state at most one leader timer is pending, exactly while leader mode is active. |
| KeyboardFacts.ActivateConsistent | keyboard.js:197-210 | activateLeader keeps the invariant; leader mode is on, the buffer empty, one new timer pending. |
| KeyboardFacts.ActivateCancelsOldTimer | keyboard.js:202-209 | The timer activateLeader replaced changes nothing when it fires. |
| KeyboardFacts.DeactivateConsistent | keyboard.js:212-220 | deactivateLeader keeps the invariant and leaves no pending timer. |
| KeyboardFacts.TimeoutExits | keyboard.js:207-209 | The live leader timer ends leader mode with no action; any other timer is inert. |
| KeyboardFacts.LeaderInputConsistent | keyboard.js:152-176 | Leader buffering keeps the invariant. |
| KeyboardFacts.FocusMediaConsistent | keyboard.js:610-620 | focusMediaItem keeps the invariant. |
| KeyboardFacts.EnterConsistent | keyboard.js:653-689 | Enter keeps the invariant. |
| KeyboardFacts.MediaStepConsistent | keyboard.js:622-640 | Media navigation keeps the invariant. |
| KeyboardFacts.TweetStepConsistent | keyboard.js:357-401 | Tweet navigation keeps the invariant. |
| KeyboardFacts.FlagsConsistent | keyboard.js:815-838 | The history flag and a grid index of at least -1 keep the invariant. |
| KeyboardFacts.MoveKeyConsistent | keyboard.js:46-50 | The movement keys keep the invariant. |
| KeyboardFacts.DirectConsistent | keyboard.js:188-194 | Every direct binding keeps the invariant. |
| KeyboardFacts.StepKeepsConsistent | keyboard.js:89-195 | Every key event keeps the invariant. |
| KeyboardFacts.InitialConsistent | keyboard.js:1841-1850 | The initial state is consistent, with leader mode off and no focus. |
| KeyboardFacts.ModifiedKeysPassThrough | keyboard.js:91-94 | A Cmd/Ctrl event changes no state and is not prevented. |
| KeyboardFacts.OverlayHandlesOnlyEscape | keyboard.js:97-112 | While an overlay is open only Escape is handled. It closes search first, else compose; other keys pass through unchanged. |
| KeyboardFacts.LightboxSwallowsKeys | keyboard.js:115-131 | The lightbox prevents every key and changes no state; h/H mean previous. |
| KeyboardFacts.TypingHandlesOnlyEscape | keyboard.js:134-140 | In a text field Escape blurs and every other key passes through. |
| KeyboardFacts.UnboundKeyEndsLeader | keyboard.js:152-176 | A key starting with no chord character ends leader mode without firing. |
| KeyboardFacts.SpaceTogglesLeader | keyboard.js:143-149 | Space activates leader mode only when it is inactive; pressed while active, it ends leader mode. |
| KeyboardFacts.PlaceholderWaits | keyboard.js:72-82 | The null entry "f" fires nothing and keeps leader mode waiting for "ff". |
| KeyboardFacts.ChordFiresOnce | keyboard.js:160-164 | A bound chord fires its action once and leaves an empty buffer and no pending timer. |
| KeyboardFacts.SpaceFFOpensSearch | keyboard.js:143-164 | Space, f, f opens search and ends leader mode. |
| KeyboardFacts.GridNavigationClamped | keyboard.js:815-838 | navigateGrid on an empty grid changes nothing. Otherwise it stays in bounds, goes from -1 to 0, moves by delta when in bounds and never wraps. |
| KeyboardFacts.GridKeys | keyboard.js:46-50 | On the bookmarks grid j/k move by ±5 and h/l by ±1. |
| KeyboardFacts.FirstVisibleIsFirst | keyboard.js:444-454 | First-visible is the first visible item when one exists, and 0 otherwise. |
| KeyboardFacts.DetachedTweetIsNoFocus | keyboard.js:472-477 | A focused tweet no longer in the document navigates as no focus. |
| KeyboardFacts.DetachedMediaIsNoFocus | keyboard.js:628-631 | A focused media item no longer in the document navigates as no focus. |
| KeyboardFacts.TweetsFromNoFocus | keyboard.js:379-386 | With no focus, tweet navigation lands on the first visible tweet itself. |
| KeyboardFacts.TweetsFromFocus | keyboard.js:357-386 | From tweet i the focus moves to clamp(i+direction), unless the tweet is scrolled within. |
| KeyboardFacts.MediaFromNoFocus | keyboard.js:628-639 | With no media focus, navigation lands on clamp(first visible + direction). |
| KeyboardFacts.ForgetDetachedLeavesLiveFocus | keyboard.js:1901-1905 | After the observer runs, the focused tweet is live; a live focus is untouched. |
| KeyboardFacts.FollowDebounce | keyboard.js:693-697 | A follow action stamps the time; a second call within 2000 ms does nothing. |
| KeyboardFacts.FollowClicks | keyboard.js:700-746 | Unfollow is clicked exactly when the debounce has passed and the button exists; follow only when there is no unfollow button. |
| KeyboardFacts.ProfileIsNotBookmarks | keyboard.js:543-555 | A profile page is never /i/bookmarks. |
| KeyboardFacts.EnterOnProfile | keyboard.js:678-686 | On a profile with no focus, Enter toggles follow only after the page has been shown for more than 1000 ms. |
| KeyboardFacts.EnterOnMediaGridNeverFollows | keyboard.js:659-669 | On a media grid Enter never follows or unfollows. |
| KeyboardFacts.ProfileTabKeys | keyboard.js:65-68 | Keys 1-4 open the four tabs of the current profile, and do nothing elsewhere. |
| KeyboardFacts.UrlChangeClearsFocus | keyboard.js:1921-1944 | A new URL clears every focus, records entering and leaving status pages and leaves the leader untouched. |
| KeyboardFacts.BareProfileAutoFocus | keyboard.js:1795-1802 | A bare /handle path is auto-focused. |
| Routes.HandleLen | keyboard.js:546 | The handle is a maximal run of word characters after the leading '/'. |
| Routes.TailStartsWithSlash | keyboard.js:546-565 | Every pattern tail after the handle is empty or starts with '/'. |
| Routes.HandleThenMatchesPattern | keyboard.js:546-565 | Reading the handle maximally matches exactly when some split of the regular expression matches. |
| Routes.ProfileUsername | keyboard.js:785-789 | getProfileUsername is present exactly when a handle follows '/'; it is non-empty, made of word characters and maximal. |
| Routes.ProfileTabUrl | keyboard.js:791-807 | A tab URL exists exactly on a profile page and for an index in 0..3. |
| Routes.PrefixDecidedByHandle | keyboard.js:548-553 | A reserved-prefix test decided within "/"+handle gives the same answer whatever tab follows. |
| Routes.HandleOf | keyboard.js:546 | "/"+u+suffix has handle u and tail suffix. |
| Routes.ProfileTabTarget | keyboard.js:791-807 | The tab URL is a profile page of the same user, and a media grid exactly for tab 2. |
| Routes.TabLandsOnProfile | keyboard.js:543-555 | Each tab path of a profile is itself a profile page of the same handle. |
| Routes.MediaTabOnlyForIndex2 | keyboard.js:561-567 | Among the four tabs only /media is a media grid. |
| Routes.NoReservedPrefix | keyboard.js:548-553 | A profile's tab paths avoid the reserved prefixes. |
| Routes.NoStatusInTab | keyboard.js:554 | A tab path contains no /status/. |
| Routes.Capture | keyboard.js:1333 | `(\d+)` captures a non-empty maximal digit run after /status/. |
| Routes.StatusIndex | keyboard.js:1333 | Finds the leftmost position where `\/status\/\d` matches. |
| Routes.StatusId | keyboard.js:1333 | A found status id is non-empty and all digits. |
| Routes.StatusIdNone | keyboard.js:1333 | getStatusId is absent exactly when the pattern matches nowhere. |
| Routes.StatusIdLeftmost | keyboard.js:1333 | getStatusId is the capture of the leftmost match. |
| Routes.StatusIdAfterPrefix | keyboard.js:1335-1340 | Prefixing text where no match can start keeps the status id. |
| Routes.OriginInert | keyboard.js:1338 | Neither /status/ nor /intent/ can start inside https://x.com. |
| Routes.ContainsAfterPrefix | keyboard.js:1335-1340 | Prefixing text where sub cannot start keeps `includes(sub)`. |
| Routes.ToAbsXUrl | keyboard.js:1335-1340 | toAbsXUrl is null exactly for an empty href. |
| Routes.ToAbsXUrlFaithful | keyboard.js:1335-1340 | toAbsXUrl keeps the status id and the /status/ and /intent/ segments, makes rooted hrefs absolute and is idempotent. |
| Deeper.MainStatusId | keyboard.js:1343-1345 | The tweet's own id comes from a non-empty timestamp link. |
| Deeper.FirstTargetWitness | keyboard.js:1409-1421 | The followed link is the first accepted candidate; every earlier one was refused. |
| Deeper.FirstTargetIsFirst | keyboard.js:1409-1421 | The first accepted candidate is the one followed. |
| Deeper.FirstTargetFound | keyboard.js:1409-1421 | If any candidate is accepted, some link is followed. |
| Deeper.FindFirstTarget | keyboard.js:1409-1421 | The loop over candidate links returns the first accepted target. |
| Deeper.GoDeeper | keyboard.js:1328-1431 | goDeeper follows DeeperTarget: steps 1 and 2, then quoted, embedded, any status link, then an external card. |
| Deeper.StatusLinkTargetSound | keyboard.js:1347-1366 | An accepted link has a status id other than the tweet's and the page's, contains /status/ and no /intent/. |
| Deeper.GoDeeperNeverNavigatesToSelf | keyboard.js:1328-1431 | goDeeper never loads the current page's status; followed links are never intent links; cards are off x.com. |
| Deeper.GoDeeperOpensOnlyOtherTweets | keyboard.js:1371-1394 | A tweet with an id is opened exactly when the page is not its own detail page; otherwise nothing happens. |
| Deeper.FindTweetByUrl | keyboard.js:479-495 | As written: the first tweet whose permalink contains "/status/"+id, with every earlier one not matching. |
| Deeper.FindTweetByStatusId | keyboard.js:479-495 | Corrected: the first tweet whose permalink has exactly that status id. |
| Deeper.StatusIdMatchImpliesSubstring | keyboard.js:490 | The exact-id test only removes false positives of the substring test. |
| Deeper.PrefixIdCollision | keyboard.js:490 | The substring test takes the permalink of id+more for id. |
| Deeper.PrefixIdCollisionExample | keyboard.js:490 | /status/123 is taken for status 12. |
| Ads.ScanHeader | content.js:98-109 | Finds a label exactly when some header span reads "ad" or "promoted". |
| Ads.ScanSpans | content.js:121-133 | Finds a label exactly when some isolated label span lies outside the tweet text. |
| Ads.DetectAd | content.js:98-138 | The verdict is the disjunction of the four heuristics. |
| Ads.ProcessCell | content.js:74-149 | The per-cell body does what SweepCell specifies. |
| Ads.RemoveAds | content.js:70-151 | One sweep updates every cell of the array as SweepCell specifies. |
| Ads.AdIsSticky | content.js:75-79 | An ad stays hidden on every later sweep, with no recount. |
| Ads.FrozenCellUntouched | content.js:82-86 | A clean cell checked 8 times is never touched again. |
| Ads.CountedPass | content.js:87-149 | A processed sweep counts exactly once, and the display then matches the verdict. |
| Ads.ArticlelessNeverFrozen | content.js:91-96 | A cell without an article is counted on every sweep and never gets a verdict. |
| Ads.CleanCellReachesCeiling | content.js:82-149 | A clean cell is re-checked, visible, up to 8 checks, then left alone. |
| Ads.LateLabelHides | content.js:140-149 | A clean cell below the ceiling becomes a hidden, sticky ad when its label appears. |
| Pages.ClassesAfterFacts | content.js:192-221 | At most one page class is left, the grid class is gone, other classes are kept, and the update is idempotent. |
| Pages.BookmarksPathShape | content.js:211 | /i/bookmarks has handle "i" followed by /bookmarks. |
| Pages.BookmarksMatchesNoPattern | content.js:211-220 | Neither page pattern matches /i/bookmarks. |
| Pages.PatternsExclusive | content.js:214-220 | The tweet-page and media-page patterns exclude each other. |
| Pages.KindIsPattern | content.js:211-220 | Each page kind holds exactly when its own pattern matches. |
| Pages.HandleStatusIsTweetPage | content.js:214 | A handle followed by a status tail is a tweet page. |
| Pages.StatusPathIsTweetPage | content.js:214 | /handle/status/digits… is a tweet page. |
| Pages.ExtractTweetData | content.js:283-312 | Never fails. Each present url, username, avatar, time and text is copied as found. A missing username becomes "Unknown"; a missing url, avatar, time or text becomes ''. hasMedia holds exactly when there is a photo or a video. |
| Pages.CardsFor | content.js:246-272 | One card per record, in order; data-index is the position and data-url the record's url. |
| Pages.PageView.constructor | content.js:6 | The page starts with no grid. |
| Pages.PageView.UpdatePageClasses | content.js:192-221 | Classes follow ClassesAfter. Leaving bookmarks drops the grid and the flag; a grid build is scheduled exactly on bookmarks. |
| Pages.PageView.BuildBookmarksGrid | content.js:227-281 | A no-op while built. With no tweets it asks for a retry. Otherwise it builds one card per tweet, in order, and sets the flag. |
| Pages.CardsMatchTweets | content.js:246-272 | Card i shows tweet i, with data-index i and its url. |
| Stats.Keep | stats.js:55-59 | The filter is no longer than its input. |
| Stats.KeepMembers | stats.js:55-59 | The filter keeps exactly the elements passing the test. |
| Stats.KeepAppend | stats.js:55-59 | The filter preserves order: it distributes over concatenation. |
| Stats.KeepIdempotent | stats.js:55-59 | Filtering twice changes nothing. |
| Stats.LastN | stats.js:46-47 | `slice(-n)` has length min(len, n) and is a suffix of the list. |
| Stats.SecondsMonotone | stats.js:102-126 | A wider window holds at least as many seconds. |
| Stats.CountIsKept | stats.js:174-192 | The windowed count equals the number of tweets the filter keeps. |
| Stats.CountMonotone | stats.js:174-192 | 24h count <= 7d count <= list length. |
| Stats.PrunedAllCount | stats.js:55-59 | After pruning, every remaining tweet counts in that window. |
| Stats.FormatTime | stats.js:128-134 | The result ends in 's' below a minute and in 'm' otherwise. |
| Stats.ReadNumber | stats.js:128-134 | A rendered number followed by a non-digit reads back as itself. |
| Stats.UnitHours | stats.js:133 | "h <m>m" reads as hours and minutes. |
| Stats.ReadSplit | stats.js:128-134 | Reading takes the leading number, then the unit. |
| Stats.ReadHours | stats.js:133 | "<h>h <m>m" reads back as h*3600 + m*60. |
| Stats.HoursAndMinutes | stats.js:133 | Whole hours and minutes give the duration less its spare seconds. |
| Stats.ReadSingleUnit | stats.js:129-132 | "<v>s" and "<v>m" read back as v and 60v. |
| Stats.FormatHoursRoundTrip | stats.js:133 | The hours form loses only the spare seconds. |
| Stats.HoursForm | stats.js:133 | Past an hour the output is "<h>h <m>m". |
| Stats.FormatTimeRoundTrip | stats.js:128-134 | formatTime is exact below a minute and exact to the minute above. |
| Stats.GetTweetId | stats.js:276-291 | When the status link has a /status/ digit run, the id is that run: the leftmost match, taken in full. Otherwise it is the time's datetime, or null without a time. |
| Stats.KeepDistinct | stats.js:55-59 | Pruning keeps the ids distinct. |
| Stats.Tracker.constructor | stats.js:8-15 | Empty lists, no session, active. |
| Stats.Tracker.StartSession | stats.js:65-77 | A session starts now with a zero clock; the lists are untouched. |
| Stats.Tracker.Tick | stats.js:79-83 | The clock adds one second exactly when active and visible. |
| Stats.Tracker.SetActive | stats.js:85-87 | Visibility and focus changes set only isActive. |
| Stats.Tracker.EndSession | stats.js:89-100 | Records {start, seconds} and saves exactly when the clock is positive. |
| Stats.Tracker.GetTimeStats | stats.js:102-126 | The 24h and 7d sums include the current session, and current <= 24h <= 7d. |
| Stats.Tracker.GetScrolledTweetsCount | stats.js:174-192 | The window counts satisfy 24h <= 7d <= list length. |
| Stats.Tracker.IsTracked | stats.js:143 | `some(t => t.id === id)`. |
| Stats.Tracker.TrackScrolledTweet | stats.js:140-151 | A new id is appended with its timestamp. Falsy or known ids change nothing. Ids stay distinct. |
| Stats.Tracker.TrackEngagement | stats.js:153-157 | Set insertion of a truthy id, in insertion order, without duplicates. A falsy or already present id leaves the list exactly as it was. |
| Stats.Tracker.CleanOldData | stats.js:55-59 | Keeps exactly the sessions and tweets newer than seven days, in order. |
| Stats.Tracker.Stored | stats.js:41-53 | The stored record holds every session, the last 2000 tweets and the last 1000 engaged ids. |
| Stats.StoredDistinct | stats.js:46 | The trimmed list keeps ids distinct. |
| Stats.SessionInWindowCounted | stats.js:89-126 | Every recorded session whose start lies inside a window counts all its seconds in that window's sum. |
| Stats.PruneKeepsSeconds | stats.js:55-59 | Pruning sessions at a bound no later than a window's start leaves that window's sum unchanged. |
| Stats.PruneKeepsCount | stats.js:55-59 | Pruning scrolled tweets at a bound no later than a window's start leaves that window's count unchanged. |
| Stats.FormatTimeExamples | tests/stats.test.js:105-134 | 30 seconds shows as "30s", 120 as "2m" and 3700 as "1h 1m". |

## Left out

- Timers: setTimeout and clearTimeout are modelled as abstract ids and a set of pending leader timers. The 1500 ms LEADER_TIMEOUT (keyboard.js:5) is therefore not a number in the model.
- The retry loops are not modelled: autoFocusTweet's interval, popstate and tryRestore in the URL observer, and buildBookmarksGrid's retry. Each attempt is modelled once: AttemptAutoFocus, RestoreFocusToLastTweet, and the retry result of BuildBookmarksGrid.
- The popstate listener (keyboard.js:1852-1899) is not modelled separately. It does the same updates as the URL observer but without the same-URL test, and it restarts the profile clock before storing the URL.
- DOM queries, `scrollIntoView` and `scrollBy` geometry, classList: they are reduced to the Page, Cell and TweetNode records and the Effect values.
- Chord actions and tweet actions are returned as Effects and not modelled further. This covers:
  - the search, compose and help overlays;
  - like, retweet, bookmark, share, mute and open-media;
  - lightbox navigation;
  - opening all bookmarks.
- Follow and unfollow buttons: the text heuristics of toggleFollow are reduced to FollowButtons, which records which buttons exist.
- Deeper.DeeperTarget: the last fallback of goDeeper (keyboard.js:1434-1445) is not modelled. It opens the tweet when it has a status id, but steps 1 and 2 have already returned in that case, so the fallback is never reached.
- The `.href` property's resolution against the page URL is not modelled. Hrefs are the attribute strings.
- Lower and Trim are ASCII-only. JavaScript's Unicode case mapping and whitespace set are not modelled.
- chrome.storage, loadStats and the write inside saveStats are not modelled. Stats.Tracker.Stored models only the record that would be written.
- getEngagementRatio (stats.js:159-172) is not modelled, because it is a floating-point ratio.
- setupTweetObserver and setupEngagementListeners are not modelled, because they are IntersectionObserver and DOM listeners. They call trackScrolledTweet and trackEngagement, which are modelled.
- Session dates are ISO strings in the source and are modelled as integer milliseconds.
- The stats widget, setupAdRemoval and setupPageDetection in content.js, and background.js, are UI and scheduling code.
- A non-numeric `betteruiCheckCount` (parseInt giving NaN) is not modelled; the count is a natural number.
- Keyboard.Controller.RestoreFocusToLastTweet uses the corrected lookup Deeper.FindTweetByStatusId rather than the substring test of the source (see Findings).

Where the model follows the code rather than the documented design:
- A buffered leader key does not restart the leader timer.
- The reserved profile prefixes are /i/, /home, /search, /compose, /settings and /messages. /explore and /notifications are not among them, so for example /explore counts as a profile.
- buildBookmarksGrid builds the grid once, with no de-duplication or incremental append.
- endSession does not reset currentSessionSeconds.
- Pressing Space (or any key starting with a non-chord character) during leader mode ends leader mode.

## Findings

| source | as written | input that shows it | evidently intended | confidence | as-written member | corrected member |
|---|---|---|---|---|---|---|
| keyboard.js:479-495 | findTweetByUrl accepts a tweet whose permalink merely contains "/status/"+id | id 12 against a timeline holding the permalink /status/123 before /status/12: focus is restored to tweet 123 | restore focus to the tweet whose status id is exactly the remembered one | not executed | Deeper.FindTweetByUrl, Deeper.PrefixIdCollision, Deeper.PrefixIdCollisionExample | Deeper.FindTweetByStatusId, Deeper.StatusIdMatchImpliesSubstring |
