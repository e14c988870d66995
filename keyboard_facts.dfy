/** Properties of the key handler of keyboard.js, stated over the
    specification functions of module Keyboard: the invariant every key
    event and every timer keeps, the precedence of handleKeyDown, the
    leader chords, and the clamped focus arithmetic. */
module KeyboardFacts {
  import opened Text
  import opened Routes
  import opened Deeper
  import opened Keyboard

  /** An event without Cmd/Ctrl, Shift or a typing target. */
  predicate Plain(e: KeyEvent) { !e.meta && !e.ctrl && !e.shift && !e.typing }

  /** No overlay and no lightbox is open. */
  predicate Quiet(s: KeyState, p: Page) { !s.searchOpen && !s.composeOpen && !p.lightboxOpen }

  // ---------------------------------------------------------------
  // The invariant
  // ---------------------------------------------------------------

  /** The characters the leader chords are made of. */
  predicate ChordChar(c: char) { c in {'f', 't', 'p', 'a', 'o', 'r', 'n', '?'} }

  lemma ChordsAreChordChars()
    ensures forall chord :: chord in LeaderBindings ==> forall i :: 0 <= i < |chord| ==> ChordChar(chord[i])
  {
    LeaderChords();
  }

  /** A freshly activated leader can still be extended. */
  lemma EmptyBufferExtends()
    ensures CouldExtend("")
  {
    assert "" < "f" && "f" in LeaderBindings;
  }

  /** Consistent states hold at most one pending leader timer, and one
      exactly while leader mode is active. */
  lemma AtMostOneTimer(s: KeyState)
    requires Consistent(s)
    ensures |s.pendingTimers| <= 1
    ensures s.pendingTimers == {} <==> !s.leaderActive
  {
    if s.leaderTimer.Some? {
      assert s.leaderTimer.value in s.pendingTimers;
    }
  }

  lemma ActivateConsistent(s: KeyState)
    requires Consistent(s)
    ensures Consistent(Activate(s))
    ensures Activate(s).leaderActive && Activate(s).leaderBuffer == ""
    ensures Activate(s).pendingTimers == {s.nextTimer}
  {
    EmptyBufferExtends();
  }

  /** activateLeader cancels the timer it replaces: that timer firing
      later changes nothing. */
  lemma ActivateCancelsOldTimer(s: KeyState)
    requires Consistent(s) && s.leaderTimer.Some?
    ensures Timeout(Activate(s), s.leaderTimer.value) == Activate(s)
  {
    assert s.leaderTimer.value < s.nextTimer;
  }

  lemma DeactivateConsistent(s: KeyState)
    requires Consistent(s)
    ensures Consistent(Deactivate(s))
    ensures !Deactivate(s).leaderActive && Deactivate(s).leaderBuffer == "" && Deactivate(s).pendingTimers == {}
  {
  }

  /** The leader timer ends leader mode with no action; any other timer
      has been cancelled and changes nothing. */
  lemma TimeoutExits(s: KeyState, t: TimerId)
    requires Consistent(s)
    ensures Consistent(Timeout(s, t))
    ensures s.leaderTimer == Some(t) ==> Timeout(s, t) == Deactivate(s) && !Timeout(s, t).leaderActive
    ensures s.leaderTimer != Some(t) ==> Timeout(s, t) == s
  {
    if t in s.pendingTimers {
      assert s.pendingTimers == {t};
    }
  }

  lemma LeaderInputConsistent(s: KeyState, key: string, path: string)
    requires Consistent(s) && s.leaderActive
    ensures Consistent(LeaderInput(s, key, path).state)
  {
    var buffer := s.leaderBuffer + key;
    if Fires(buffer) {
      var c := ChordAction(s, buffer, path);
      assert c.state == s || c.state == s.(searchOpen := true) || c.state == s.(composeOpen := true);
      DeactivateConsistent(c.state);
    } else if !CouldExtend(buffer) {
      DeactivateConsistent(s);
    }
  }

  lemma FocusMediaConsistent(s: KeyState, el: ElemId, i: nat)
    requires Consistent(s)
    ensures Consistent(FocusMedia(s, el, i))
  {
  }

  lemma EnterConsistent(s: KeyState, p: Page)
    requires Consistent(s)
    ensures Consistent(Enter(s, p).state)
  {
    if !OnBookmarksGrid(p) && IsOnProfileMediaGrid(p.path) && !MediaLive(s, p) && |p.media| > 0 {
      FocusMediaConsistent(s, p.media[FirstVisible(p.media, p.innerHeight)].el, FirstVisible(p.media, p.innerHeight));
    }
  }

  lemma MediaStepConsistent(s: KeyState, d: int, p: Page)
    requires Consistent(s)
    ensures Consistent(MediaStep(s, d, p).state)
  {
    if |p.media| > 0 {
      var found := if MediaLive(s, p) then IndexOf(p.media, s.focusedMedia.value) else -1;
      var current := if found == -1 then FirstVisible(p.media, p.innerHeight) else found;
      var i := Clamp(current + d, |p.media|);
      FocusMediaConsistent(s, p.media[i].el, i);
    }
  }

  lemma TweetStepConsistent(s: KeyState, d: int, p: Page)
    requires Consistent(s)
    ensures Consistent(TweetStep(s, d, p).state)
  {
    assert TweetStep(s, d, p).state == s.(focusedTweet := TweetStep(s, d, p).state.focusedTweet);
  }

  /** Focus and history flags play no part in the invariant. */
  lemma FlagsConsistent(s: KeyState, b: bool, g: int)
    requires Consistent(s) && g >= -1
    ensures Consistent(s.(navigatedFromStatusPage := b))
    ensures Consistent(s.(gridFocusIndex := g))
  {
  }

  lemma MoveKeyConsistent(s: KeyState, key: string, p: Page)
    requires Consistent(s)
    ensures Consistent(MoveKey(s, key, p).state)
  {
    var r := MoveKey(s, key, p).state;
    if OnBookmarksGrid(p) {
      FlagsConsistent(s, false, r.gridFocusIndex);
    } else if key == "j" || key == "k" {
      var d := if key == "j" then 1 else -1;
      if IsOnProfileMediaGrid(p.path) {
        MediaStepConsistent(s, d, p);
      } else {
        TweetStepConsistent(s, d, p);
      }
    } else if key == "h" || key == "H" {
      FlagsConsistent(s, StatusId(p.path).Some?, -1);
    }
  }

  lemma DirectConsistent(s: KeyState, key: string, p: Page)
    requires Consistent(s)
    ensures Consistent(Direct(s, key, p).state)
  {
    if key in {"j", "k", "h", "H", "l"} {
      MoveKeyConsistent(s, key, p);
    } else if key == "Enter" {
      EnterConsistent(s, p);
    }
  }

  /** Every key event keeps the invariant. */
  lemma StepKeepsConsistent(s: KeyState, e: KeyEvent, p: Page)
    requires Consistent(s)
    ensures Consistent(Step(s, e, p).state)
  {
    if e.meta || e.ctrl || s.searchOpen || s.composeOpen || p.lightboxOpen || e.typing {
    } else if e.key == LeaderKey && !s.leaderActive {
      ActivateConsistent(s);
    } else if s.leaderActive {
      LeaderInputConsistent(s, e.key, p.path);
    } else if e.key == "Enter" && e.shift {
    } else if IsDirectKey(e.key) {
      DirectConsistent(s, e.key, p);
    }
  }

  /** The state init creates is consistent, and so is every state a
      sequence of key events and leader timeouts reaches from it. */
  lemma InitialConsistent(url: string, path: string, now: int)
    ensures Consistent(Initial(url, path, now))
    ensures !Initial(url, path, now).leaderActive && Initial(url, path, now).focusedTweet.None?
  {
  }

  // ---------------------------------------------------------------
  // Precedence
  // ---------------------------------------------------------------

  /** Cmd/Ctrl shortcuts pass through untouched. */
  lemma ModifiedKeysPassThrough(s: KeyState, e: KeyEvent, p: Page)
    requires e.meta || e.ctrl
    ensures Step(s, e, p) == Reaction(s, Outcome(false, NoEffect))
  {
  }

  /** While an overlay is open only Escape is handled: it closes the
      search overlay, or else the compose overlay. */
  lemma OverlayHandlesOnlyEscape(s: KeyState, e: KeyEvent, p: Page)
    requires !e.meta && !e.ctrl && (s.searchOpen || s.composeOpen)
    ensures e.key != "Escape" ==> Step(s, e, p) == Reaction(s, Outcome(false, NoEffect))
    ensures e.key == "Escape" ==> Step(s, e, p).outcome == Outcome(true, NoEffect)
    ensures e.key == "Escape" && s.searchOpen ==> Step(s, e, p).state == s.(searchOpen := false)
    ensures e.key == "Escape" && !s.searchOpen ==> Step(s, e, p).state == s.(composeOpen := false)
  {
  }

  /** The lightbox swallows every key and moves or closes the viewer. */
  lemma LightboxSwallowsKeys(s: KeyState, e: KeyEvent, p: Page)
    requires !e.meta && !e.ctrl && !s.searchOpen && !s.composeOpen && p.lightboxOpen
    ensures Step(s, e, p).state == s && Step(s, e, p).outcome.prevented
    ensures Step(s, e, p).outcome.effect in {LightboxPrev, LightboxNext, LightboxClose, NoEffect}
    ensures Step(s, e, p).outcome.effect == LightboxPrev <==> e.key == "h" || e.key == "H"
  {
  }

  /** In a text field only Escape is handled, by blurring it; the leader
      and the direct bindings are not reached. */
  lemma TypingHandlesOnlyEscape(s: KeyState, e: KeyEvent, p: Page)
    requires !e.meta && !e.ctrl && Quiet(s, p) && e.typing
    ensures Step(s, e, p).state == s
    ensures Step(s, e, p).outcome == if e.key == "Escape" then Outcome(true, Blur) else Outcome(false, NoEffect)
  {
  }

  // ---------------------------------------------------------------
  // Leader chords
  // ---------------------------------------------------------------

  /** A key that starts with no chord's character ends leader mode and
      runs nothing; this covers Space pressed again and the "Shift" keydown. */
  lemma UnboundKeyEndsLeader(s: KeyState, key: string, path: string)
    requires Consistent(s) && s.leaderActive
    requires key != "" && !ChordChar(key[0])
    ensures LeaderInput(s, key, path) == Change(Deactivate(s), NoEffect)
  {
    var buffer := s.leaderBuffer + key;
    assert buffer[|s.leaderBuffer|] == key[0];
    ChordsAreChordChars();
    assert !Fires(buffer);
    assert !CouldExtend(buffer);
  }

  /** Space activates leader mode only when it is inactive; pressed again
      it is buffered like any key, matches nothing, and ends leader mode. */
  lemma SpaceTogglesLeader(s: KeyState, e: KeyEvent, p: Page)
    requires Consistent(s) && Plain(e) && Quiet(s, p) && e.key == LeaderKey
    ensures !s.leaderActive ==> Step(s, e, p) == Reaction(Activate(s), Outcome(true, NoEffect))
    ensures s.leaderActive ==> Step(s, e, p) == Reaction(Deactivate(s), Outcome(true, NoEffect))
  {
    if s.leaderActive {
      UnboundKeyEndsLeader(s, e.key, p.path);
    }
  }

  /** "f" is a null entry: it fires nothing and keeps leader mode waiting
      for "ff". */
  lemma PlaceholderWaits(s: KeyState, path: string)
    requires Consistent(s) && s.leaderActive && s.leaderBuffer == ""
    ensures LeaderInput(s, "f", path) == Change(s.(leaderBuffer := "f"), NoEffect)
  {
    assert "" + "f" == "f";
    assert !Fires("f");
    assert "f" < "ff" && "ff" in LeaderBindings;
  }

  /** A bound chord runs its action once and leaves leader mode with an
      empty buffer and no pending timer. */
  lemma ChordFiresOnce(s: KeyState, key: string, path: string)
    requires Consistent(s) && s.leaderActive && Fires(s.leaderBuffer + key)
    ensures LeaderInput(s, key, path).effect == ChordAction(s, s.leaderBuffer + key, path).effect
    ensures var r := LeaderInput(s, key, path).state;
            !r.leaderActive && r.leaderBuffer == "" && r.pendingTimers == {}
  {
    var c := ChordAction(s, s.leaderBuffer + key, path);
    assert c.state.leaderTimer == s.leaderTimer && c.state.pendingTimers == s.pendingTimers;
  }

  /** Space, f, f opens the search overlay and ends leader mode. */
  lemma SpaceFFOpensSearch(s: KeyState, p: Page, e0: KeyEvent, e1: KeyEvent, e2: KeyEvent)
    requires Consistent(s) && !s.leaderActive && Quiet(s, p)
    requires Plain(e0) && Plain(e1) && Plain(e2)
    requires e0.key == LeaderKey && e1.key == "f" && e2.key == "f"
    ensures var s1 := Step(s, e0, p).state;
            var s2 := Step(s1, e1, p).state;
            var r := Step(s2, e2, p);
            r.state.searchOpen && !r.state.leaderActive && r.state.leaderBuffer == ""
            && r.state.pendingTimers == {} && r.outcome == Outcome(true, NoEffect)
  {
    var s1 := Step(s, e0, p).state;
    ActivateConsistent(s);
    assert s1 == Activate(s);
    PlaceholderWaits(s1, p.path);
    var s2 := Step(s1, e1, p).state;
    assert s2 == s1.(leaderBuffer := "f");
    assert s2.leaderBuffer + e2.key == "ff";
    assert Fires("ff");
    ChordFiresOnce(s2, e2.key, p.path);
  }

  // ---------------------------------------------------------------
  // Focus arithmetic
  // ---------------------------------------------------------------

  /** navigateGrid: nothing on an empty grid; otherwise the index stays in
      bounds, starts at 0 from no focus, moves by delta when that stays in
      bounds, and never wraps around. */
  lemma GridNavigationClamped(s: KeyState, delta: int, cards: seq<string>)
    ensures |cards| == 0 ==> GridStep(s, delta, cards) == s
    ensures var r := GridStep(s, delta, cards).gridFocusIndex;
            && (|cards| > 0 ==> 0 <= r < |cards|)
            && (|cards| > 0 && s.gridFocusIndex == -1 ==> r == 0)
            && (s.gridFocusIndex >= 0 && 0 <= s.gridFocusIndex + delta < |cards| ==> r == s.gridFocusIndex + delta)
            && (0 <= s.gridFocusIndex < |cards| && delta >= 0 ==> r >= s.gridFocusIndex)
            && (0 <= s.gridFocusIndex < |cards| && delta <= 0 ==> r <= s.gridFocusIndex)
    ensures GridStep(s, delta, cards) == s.(gridFocusIndex := GridStep(s, delta, cards).gridFocusIndex)
  {
  }

  /** On the bookmarks grid j/k move a row of five cards and h/l one card. */
  lemma GridKeys(s: KeyState, e: KeyEvent, p: Page)
    requires Plain(e) && Quiet(s, p) && !s.leaderActive && OnBookmarksGrid(p)
    requires e.key in {"j", "k", "h", "H", "l"}
    ensures Step(s, e, p).outcome == Outcome(true, NoEffect)
    ensures Step(s, e, p).state == GridStep(s, if e.key == "j" then 5 else if e.key == "k" then -5
                                              else if e.key == "l" then 1 else -1, GridCards(p))
  {
    assert IsDirectKey(e.key);
  }

  /** The first visible item, or 0 when none is visible. */
  lemma FirstVisibleIsFirst(items: seq<Item>, innerHeight: int)
    ensures var k := FirstVisible(items, innerHeight);
            && ((exists j :: 0 <= j < |items| && Visible(items[j].rect, innerHeight)) ==>
                  k < |items| && Visible(items[k].rect, innerHeight)
                  && forall j :: 0 <= j < k ==> !Visible(items[j].rect, innerHeight))
            && ((forall j :: 0 <= j < |items| ==> !Visible(items[j].rect, innerHeight)) ==> k == 0)
  {
    var v := VisibleIndex(items, innerHeight);
    if exists j :: 0 <= j < |items| && Visible(items[j].rect, innerHeight) {
      var j :| 0 <= j < |items| && Visible(items[j].rect, innerHeight);
      assert v <= j;
    }
  }

  /** A focused tweet that left the document counts as no focus. */
  lemma DetachedTweetIsNoFocus(s: KeyState, direction: int, p: Page)
    requires |p.tweets| > 0 && s.focusedTweet.Some? && s.focusedTweet.value !in p.attached
    ensures TweetStep(s, direction, p) == TweetStep(s.(focusedTweet := None), direction, p)
  {
  }

  /** A focused media item that left the document counts as no focus. */
  lemma DetachedMediaIsNoFocus(s: KeyState, direction: int, p: Page)
    requires |p.media| > 0 && s.focusedMedia.Some? && s.focusedMedia.value !in p.attached
    ensures MediaStep(s, direction, p) == MediaStep(s.(focusedMedia := None), direction, p)
  {
  }

  /** Without a focus, j and k both land on the first visible tweet. */
  lemma TweetsFromNoFocus(s: KeyState, direction: int, p: Page)
    requires |p.tweets| > 0 && LiveTweet(s, p).None?
    ensures var k := FirstVisible(p.tweets, p.innerHeight);
            TweetStep(s, direction, p) == Change(s.(focusedTweet := Some(p.tweets[k].el)), ScrollTo(p.tweets[k].el))
  {
  }

  /** From the tweet at index i, j and k move one tweet, clamped to the
      list, unless the tweet is taller than the screen and not yet
      scrolled through. */
  lemma TweetsFromFocus(s: KeyState, direction: int, p: Page, i: nat)
    requires i < |p.tweets| && LiveTweet(s, p) == Some(p.tweets[i].el)
    requires forall j :: 0 <= j < i ==> p.tweets[j].el != p.tweets[i].el
    ensures ScrollsWithin(p.tweets[i].rect, direction, p.innerHeight) ==>
              TweetStep(s, direction, p) == Change(s, ScrollWithinTweet(direction > 0))
    ensures !ScrollsWithin(p.tweets[i].rect, direction, p.innerHeight) ==>
              var k := Clamp(i + direction, |p.tweets|);
              TweetStep(s, direction, p) == Change(s.(focusedTweet := Some(p.tweets[k].el)), ScrollTo(p.tweets[k].el))
  {
    var k := IndexOf(p.tweets, p.tweets[i].el);
    assert k != -1;
    assert k == i;
  }

  /** Without a media focus, j and k land next to the first visible item:
      first visible plus the direction, clamped. */
  lemma MediaFromNoFocus(s: KeyState, direction: int, p: Page)
    requires |p.media| > 0 && !MediaLive(s, p)
    ensures var k := Clamp(FirstVisible(p.media, p.innerHeight) + direction, |p.media|);
            var r := MediaStep(s, direction, p).state;
            r.mediaFocusIndex == k && r.focusedMedia == Some(p.media[k].el)
            && r.focusedTweet.None? && r.gridFocusIndex == -1
  {
  }

  /** After the mutation observer ran, the focused tweet is live. */
  lemma ForgetDetachedLeavesLiveFocus(s: KeyState, p: Page)
    ensures var r := ForgetDetached(s, p.attached);
            LiveTweet(r, p) == r.focusedTweet
            && (LiveTweet(s, p).Some? ==> r == s)
  {
  }

  // ---------------------------------------------------------------
  // Enter, follow and profile tabs
  // ---------------------------------------------------------------

  /** Follow clicks are at least 2000 ms apart: an action stamps the time,
      and a second call within 2000 ms of it does nothing. */
  lemma FollowDebounce(s: KeyState, p: Page, q: Page)
    requires p.now - s.lastFollowAction >= FollowDebounceMs
    requires q.now - p.now < FollowDebounceMs
    ensures var s1 := FollowStep(s, p).state;
            s1 == s.(lastFollowAction := p.now) && FollowStep(s1, q) == Change(s1, NoEffect)
  {
  }

  /** A click happens only after the debounce, and unfollow wins when both
      buttons are present. */
  lemma FollowClicks(s: KeyState, p: Page)
    ensures FollowStep(s, p).effect in {NoEffect, ClickFollow, ClickUnfollow}
    ensures FollowStep(s, p).effect == ClickUnfollow <==>
              p.now - s.lastFollowAction >= FollowDebounceMs && p.buttons.primaryColumn && p.buttons.unfollow
    ensures FollowStep(s, p).effect == ClickFollow <==>
              p.now - s.lastFollowAction >= FollowDebounceMs && p.buttons.primaryColumn
              && !p.buttons.unfollow && p.buttons.follow
  {
  }

  /** A profile page is never the bookmarks page. */
  lemma ProfileIsNotBookmarks(path: string)
    requires IsOnProfilePage(path)
    ensures path != BookmarksPath
  {
    if path == BookmarksPath {
      assert StartsWith(path, "/i/");
    }
  }

  /** On a profile page with no focused tweet, Enter toggles follow only
      once the page has been shown for more than a second. */
  lemma EnterOnProfile(s: KeyState, p: Page)
    requires IsOnProfilePage(p.path) && !IsOnProfileMediaGrid(p.path) && LiveTweet(s, p).None?
    ensures Enter(s, p) == if p.now - s.profileEnteredAt > ProfileSettleMs then FollowStep(s, p) else Change(s, NoEffect)
  {
    ProfileIsNotBookmarks(p.path);
  }

  /** On a profile media grid Enter never follows or unfollows. */
  lemma EnterOnMediaGridNeverFollows(s: KeyState, p: Page)
    requires IsOnProfileMediaGrid(p.path)
    ensures Enter(s, p).effect != ClickFollow && Enter(s, p).effect != ClickUnfollow
    ensures Enter(s, p).state.lastFollowAction == s.lastFollowAction
  {
  }

  /** Keys 1 to 4 open the four profile tabs, and do nothing elsewhere. */
  lemma ProfileTabKeys(s: KeyState, e: KeyEvent, p: Page)
    requires Plain(e) && Quiet(s, p) && !s.leaderActive
    requires e.key in {"1", "2", "3", "4"}
    ensures Step(s, e, p).state == s && Step(s, e, p).outcome.prevented
    ensures var i := if e.key == "1" then 0 else if e.key == "2" then 1 else if e.key == "3" then 2 else 3;
            Step(s, e, p).outcome.effect ==
              if IsOnProfilePage(p.path) then Navigate(XOrigin + "/" + ProfileUsername(p.path).value + TabSuffix(i))
              else NoEffect
  {
    assert IsDirectKey(e.key);
    var i := if e.key == "1" then 0 else if e.key == "2" then 1 else if e.key == "3" then 2 else 3;
    assert Direct(s, e.key, p) == Change(s, ProfileTabEffect(p.path, i));
  }

  // ---------------------------------------------------------------
  // Location changes
  // ---------------------------------------------------------------

  /** A new location clears every focus, remembers a status page being
      entered and notes a status page being left; the leader is untouched. */
  lemma UrlChangeClearsFocus(s: KeyState, href: string, path: string, now: int)
    ensures href == s.lastUrl ==> UrlChanged(s, href, path, now) == s
    ensures href != s.lastUrl ==>
              var r := UrlChanged(s, href, path, now);
              && r.focusedTweet.None? && r.focusedMedia.None? && r.gridFocusIndex == -1 && r.mediaFocusIndex == -1
              && r.lastUrl == href
              && (StatusId(s.lastUrl).None? && StatusId(path).Some? ==> r.lastFocusedTweetUrl == Some(href))
              && (StatusId(s.lastUrl).Some? && StatusId(path).None? ==> r.navigatedFromStatusPage)
              && (IsOnProfilePage(path) ==> r.profileEnteredAt == now)
              && r.leaderActive == s.leaderActive && r.pendingTimers == s.pendingTimers
  {
  }

  /** A bare profile path is a page where a tweet is auto-focused. */
  lemma BareProfileAutoFocus(path: string, u: string)
    requires ProfileUsername(path) == Some(u) && path == "/" + u
    ensures ShouldAutoFocus(path)
  {
    assert path[1..] == u;
    assert AllWordChars(u);
    assert forall i :: 0 <= i < |u| ==> u[i] != '/';
  }
}
