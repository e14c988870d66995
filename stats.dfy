/** The time and engagement counters of stats.js: a session clock that
    ticks while the page is active and visible, the list of scrolled tweets
    and the set of engaged tweets, the 24-hour and 7-day windows over them,
    the pruning of entries older than seven days, the trimmed snapshot that
    is written to storage, formatTime and getTweetId.

    Timestamps are integer milliseconds since the epoch; the ISO date string
    of a session is represented by the millisecond value it encodes. */
module Stats {
  import opened Text
  import opened Routes

  const DayMs: int := 24 * 60 * 60 * 1000
  const WeekMs: int := 7 * DayMs

  /** saveStats keeps the last 2000 scrolled tweets and 1000 engaged ids. */
  const StoredScrolled: nat := 2000
  const StoredEngaged: nat := 1000

  /** `{ date, seconds }` of a finished session. */
  datatype Session = Session(date: int, seconds: nat)

  /** `{ id, timestamp }` of a scrolled tweet. */
  datatype Scrolled = Scrolled(id: string, timestamp: int)

  // ---------------------------------------------------------------
  // Array.prototype.filter and slice(-n)
  // ---------------------------------------------------------------

  /** `s.filter(p)`. */
  function Keep<T>(s: seq<T>, p: T -> bool): (r: seq<T>)
    ensures |r| <= |s|
  {
    if s == [] then [] else (if p(s[0]) then [s[0]] else []) + Keep(s[1..], p)
  }

  /** The filter keeps exactly the elements satisfying p. */
  lemma {:induction false} KeepMembers<T>(s: seq<T>, p: T -> bool, x: T)
    ensures x in Keep(s, p) <==> x in s && p(x)
  {
    if s != [] {
      KeepMembers(s[1..], p, x);
      assert s == [s[0]] + s[1..];
    }
  }

  /** The filter preserves order: it distributes over concatenation. */
  lemma {:induction false} KeepAppend<T>(s: seq<T>, t: seq<T>, p: T -> bool)
    ensures Keep(s + t, p) == Keep(s, p) + Keep(t, p)
  {
    if s == [] {
      assert s + t == t;
    } else {
      var head := if p(s[0]) then [s[0]] else [];
      assert (s + t)[0] == s[0] && (s + t)[1..] == s[1..] + t;
      assert Keep(s + t, p) == head + Keep(s[1..] + t, p);
      KeepAppend(s[1..], t, p);
      assert Keep(s, p) == head + Keep(s[1..], p);
    }
  }

  /** Filtering twice by the same test changes nothing. */
  lemma {:induction false} KeepIdempotent<T>(s: seq<T>, p: T -> bool)
    ensures Keep(Keep(s, p), p) == Keep(s, p)
  {
    if s != [] {
      KeepIdempotent(s[1..], p);
      var head := if p(s[0]) then [s[0]] else [];
      KeepAppend(head, Keep(s[1..], p), p);
      if p(s[0]) {
        assert Keep(head, p) == [s[0]] + Keep([], p);
      }
    }
  }

  /** `s.slice(-n)` for n > 0: the last n elements, or all of s. */
  function LastN<T>(s: seq<T>, n: nat): (r: seq<T>)
    ensures |r| == if |s| <= n then |s| else n
    ensures s == s[..|s| - |r|] + r
  {
    if |s| <= n then s else s[|s| - n..]
  }

  // ---------------------------------------------------------------
  // Windows
  // ---------------------------------------------------------------

  /** The session started strictly after `since`. */
  function SessionAfter(since: int): Session -> bool {
    (s: Session) => s.date > since
  }

  /** The tweet was scrolled strictly after `since`. */
  function ScrolledAfter(since: int): Scrolled -> bool {
    (t: Scrolled) => t.timestamp > since
  }

  /** Seconds of the sessions that started after `since`. */
  function SecondsSince(sessions: seq<Session>, since: int): nat {
    if sessions == [] then 0
    else
      var last := sessions[|sessions| - 1];
      SecondsSince(sessions[..|sessions| - 1], since) + (if last.date > since then last.seconds else 0)
  }

  /** Number of tweets scrolled after `since`. */
  function CountSince(tweets: seq<Scrolled>, since: int): nat {
    if tweets == [] then 0
    else
      CountSince(tweets[..|tweets| - 1], since) + (if tweets[|tweets| - 1].timestamp > since then 1 else 0)
  }

  /** A wider window holds at least as many seconds. */
  lemma {:induction false} SecondsMonotone(sessions: seq<Session>, early: int, late: int)
    requires early <= late
    ensures SecondsSince(sessions, late) <= SecondsSince(sessions, early)
  {
    if sessions != [] {
      SecondsMonotone(sessions[..|sessions| - 1], early, late);
    }
  }

  /** The windowed count is the number of tweets the 7-day filter would keep
      for the same bound, so it is monotone in the bound and at most the
      list's length. */
  lemma {:induction false} CountIsKept(tweets: seq<Scrolled>, since: int)
    ensures CountSince(tweets, since) == |Keep(tweets, ScrolledAfter(since))|
  {
    if tweets != [] {
      var init := tweets[..|tweets| - 1];
      var last := tweets[|tweets| - 1];
      assert tweets == init + [last];
      CountIsKept(init, since);
      KeepAppend(init, [last], ScrolledAfter(since));
      assert Keep([last], ScrolledAfter(since)) == (if last.timestamp > since then [last] else []) + Keep([], ScrolledAfter(since));
    }
  }

  lemma {:induction false} CountMonotone(tweets: seq<Scrolled>, early: int, late: int)
    requires early <= late
    ensures CountSince(tweets, late) <= CountSince(tweets, early) <= |tweets|
  {
    if tweets != [] {
      CountMonotone(tweets[..|tweets| - 1], early, late);
    }
  }

  /** After pruning at a bound, every remaining tweet counts in the window
      of that bound. */
  lemma PrunedAllCount(tweets: seq<Scrolled>, since: int)
    ensures var kept := Keep(tweets, ScrolledAfter(since));
            CountSince(kept, since) == |kept|
  {
    var kept := Keep(tweets, ScrolledAfter(since));
    CountIsKept(kept, since);
    KeepIdempotent(tweets, ScrolledAfter(since));
  }

  // ---------------------------------------------------------------
  // formatTime
  // ---------------------------------------------------------------

  /** formatTime: "<s>s" under a minute, "<m>m" under an hour, else "<h>h <m>m". */
  function FormatTime(seconds: nat): (r: string)
    ensures |r| >= 2
    ensures r[|r| - 1] == if seconds < 60 then 's' else 'm'
  {
    if seconds < 60 then Show(seconds) + "s"
    else if seconds < 3600 then Show(seconds / 60) + "m"
    else Show(seconds / 3600) + "h " + Show(seconds % 3600 / 60) + "m"
  }

  /** The leading decimal number of r and what follows it. */
  function ReadLeading(r: string): Option<(nat, string)> {
    var n := DigitRun(r);
    if n == 0 then None else Some((DigitsValue(r[..n]), r[n..]))
  }

  /** The unit after a leading number v: "s", "m", or "h " and minutes. */
  function ReadUnit(v: nat, rest: string): Option<nat> {
    if rest == "s" then Some(v)
    else if rest == "m" then Some(v * 60)
    else if |rest| >= 2 && rest[0] == 'h' && rest[1] == ' ' then
      match ReadLeading(rest[2..])
      case Some((m, t)) => if t == "m" then Some(v * 3600 + m * 60) else None
      case None => None
    else None
  }

  /** Reads a formatted duration back into seconds. */
  function ReadTime(r: string): Option<nat> {
    match ReadLeading(r)
    case Some((v, rest)) => ReadUnit(v, rest)
    case None => None
  }

  /** A rendered number followed by a non-digit tail reads back as itself. */
  lemma ReadNumber(v: nat, tail: string)
    requires tail == [] || !IsDigit(tail[0])
    ensures ReadLeading(Show(v) + tail) == Some((v, tail))
  {
    ShowThenStop(v, tail);
    ShowRoundTrip(v);
  }

  /** The unit part "h <m>m" of the hours form. */
  lemma UnitHours(h: nat, sm: string, m: nat)
    requires ReadLeading(sm + "m") == Some((m, "m"))
    ensures ReadUnit(h, "h " + sm + "m") == Some(h * 3600 + m * 60)
  {
    var tail := "h " + sm + "m";
    assert tail[2..] == sm + "m";
    assert |tail| > 2;
  }

  /** ReadTime reads the leading number, then the unit. */
  lemma ReadSplit(r: string, v: nat, rest: string)
    requires ReadLeading(r) == Some((v, rest))
    ensures ReadTime(r) == ReadUnit(v, rest)
  {
  }

  /** The hours form "<h>h <m>m" reads back as h hours and m minutes. */
  lemma ReadHours(h: nat, m: nat)
    ensures ReadTime(Show(h) + ("h " + Show(m) + "m")) == Some(h * 3600 + m * 60)
  {
    var tail := "h " + Show(m) + "m";
    ReadNumber(m, "m");
    UnitHours(h, Show(m), m);
    ReadNumber(h, tail);
    ReadSplit(Show(h) + tail, h, tail);
  }

  /** Whole hours and whole minutes make up the duration down to the minute. */
  lemma HoursAndMinutes(seconds: nat)
    ensures (seconds / 3600) * 3600 + (seconds % 3600 / 60) * 60 == seconds - seconds % 60
  {
    var h := seconds / 3600;
    var r := seconds % 3600;
    var m := r / 60;
    assert seconds == h * 3600 + r;
    assert r == m * 60 + r % 60;
    assert seconds == (h * 60 + m) * 60 + r % 60;
    assert seconds % 60 == r % 60;
  }

  /** A number followed by a one-letter unit reads back with that unit. */
  lemma ReadSingleUnit(v: nat, u: string)
    requires u == "s" || u == "m"
    ensures ReadTime(Show(v) + u) == Some(if u == "s" then v else v * 60)
  {
    ReadNumber(v, u);
    ReadSplit(Show(v) + u, v, u);
  }

  /** The hours form reads back as the duration down to the minute. */
  lemma FormatHoursRoundTrip(seconds: nat)
    requires seconds >= 3600
    ensures ReadTime(FormatTime(seconds)) == Some(seconds - seconds % 60)
  {
    var h := seconds / 3600;
    var m := seconds % 3600 / 60;
    HoursForm(seconds, h, m);
    ReadHours(h, m);
    HoursAndMinutes(seconds);
  }

  /** formatTime past an hour is the hours form of its whole hours and minutes. */
  lemma HoursForm(seconds: nat, h: nat, m: nat)
    requires seconds >= 3600 && h == seconds / 3600 && m == seconds % 3600 / 60
    ensures FormatTime(seconds) == Show(h) + ("h " + Show(m) + "m")
  {
  }

  /** formatTime loses nothing but the seconds past the last whole minute
      once the duration reaches a minute. */
  lemma FormatTimeRoundTrip(seconds: nat)
    ensures ReadTime(FormatTime(seconds)) == Some(if seconds < 60 then seconds else seconds - seconds % 60)
  {
    if seconds < 60 {
      ReadSingleUnit(seconds, "s");
    } else if seconds < 3600 {
      ReadSingleUnit(seconds / 60, "m");
      assert seconds / 60 * 60 == seconds - seconds % 60;
    } else {
      FormatHoursRoundTrip(seconds);
    }
  }

  // ---------------------------------------------------------------
  // getTweetId
  // ---------------------------------------------------------------

  /** What getTweetId queries: the href of the first status link and the
      `datetime` attribute of the first time element, each None when the
      element (or the attribute) is missing. */
  datatype TweetElement = TweetElement(statusLinkHref: Option<string>, hasTime: bool, datetime: Option<string>)

  /** getTweetId: the digits after `/status/` in the status link, else the
      time element's `datetime`, else null. */
  function GetTweetId(t: TweetElement): (r: Option<string>)
    ensures t.statusLinkHref.Some? && StatusId(t.statusLinkHref.value).Some? ==>
              r.Some? && r.value != "" && AllDigits(r.value)
              && Contains(t.statusLinkHref.value, "/status/" + r.value)
    ensures t.statusLinkHref.Some? && StatusId(t.statusLinkHref.value).Some? ==>
              r == StatusId(t.statusLinkHref.value)
    ensures (t.statusLinkHref.None? || StatusId(t.statusLinkHref.value).None?) ==>
              r == (if t.hasTime then t.datetime else None)
  {
    if t.statusLinkHref.Some? && StatusId(t.statusLinkHref.value).Some? then
      var href := t.statusLinkHref.value;
      var k := StatusIndex(href);
      assert OccursAt(href, "/status/" + Capture(href[k..]), k);
      ContainsIff(href, "/status/" + Capture(href[k..]));
      StatusId(href)
    else if t.hasTime then t.datetime
    else None
  }

  // ---------------------------------------------------------------
  // The tracker
  // ---------------------------------------------------------------

  predicate Tracked(tweets: seq<Scrolled>, id: string) {
    exists i :: 0 <= i < |tweets| && tweets[i].id == id
  }

  predicate DistinctIds(tweets: seq<Scrolled>) {
    forall i, j :: 0 <= i < j < |tweets| ==> tweets[i].id != tweets[j].id
  }

  predicate Distinct(ids: seq<string>) {
    forall i, j :: 0 <= i < j < |ids| ==> ids[i] != ids[j]
  }

  /** Pruning keeps the ids distinct. */
  lemma {:induction false} KeepDistinct(tweets: seq<Scrolled>, p: Scrolled -> bool)
    requires DistinctIds(tweets)
    ensures DistinctIds(Keep(tweets, p))
  {
    if tweets != [] {
      KeepDistinct(tweets[1..], p);
      var rest := Keep(tweets[1..], p);
      forall j | 0 <= j < |rest|
        ensures rest[j].id != tweets[0].id
      {
        KeepMembers(tweets[1..], p, rest[j]);
      }
    }
  }

  /** The 24-hour and 7-day figures of getTimeStats. */
  datatype TimeStats = TimeStats(last24h: string, last7d: string, last24hRaw: nat, last7dRaw: nat)

  /** What saveStats writes. */
  datatype StoredStats = StoredStats(sessions: seq<Session>, scrolledTweets: seq<Scrolled>, engagedTweets: seq<string>)

  /** The module-level `state` of stats.js. The engaged set is kept in
      insertion order, as a JavaScript Set iterates. */
  class Tracker {
    var sessions: seq<Session>
    var scrolledTweets: seq<Scrolled>
    var engagedTweets: seq<string>
    var currentSessionStart: Option<int>
    var currentSessionSeconds: nat
    var isActive: bool

    /** No id is scrolled or engaged twice, and the clock only runs inside
        a started session. */
    ghost predicate Valid()
      reads this
    {
      DistinctIds(scrolledTweets) && Distinct(engagedTweets)
      && (currentSessionStart.None? ==> currentSessionSeconds == 0)
    }

    constructor ()
      ensures Valid()
      ensures sessions == [] && scrolledTweets == [] && engagedTweets == []
      ensures currentSessionStart.None? && currentSessionSeconds == 0 && isActive
    {
      sessions := [];
      scrolledTweets := [];
      engagedTweets := [];
      currentSessionStart := None;
      currentSessionSeconds := 0;
      isActive := true;
    }

    /** startSession at time `now`. */
    method StartSession(now: int)
      requires Valid()
      modifies this
      ensures Valid()
      ensures currentSessionStart == Some(now) && currentSessionSeconds == 0 && isActive
      ensures sessions == old(sessions) && scrolledTweets == old(scrolledTweets)
      ensures engagedTweets == old(engagedTweets)
    {
      currentSessionStart := Some(now);
      currentSessionSeconds := 0;
      isActive := true;
    }

    /** One tick of the one-second interval. */
    method Tick(hidden: bool)
      requires Valid() && currentSessionStart.Some?
      modifies this
      ensures Valid()
      ensures currentSessionSeconds == old(currentSessionSeconds) + (if old(isActive) && !hidden then 1 else 0)
      ensures sessions == old(sessions) && scrolledTweets == old(scrolledTweets)
      ensures engagedTweets == old(engagedTweets)
      ensures currentSessionStart == old(currentSessionStart) && isActive == old(isActive)
    {
      if isActive && !hidden {
        currentSessionSeconds := currentSessionSeconds + 1;
      }
    }

    /** handleVisibility, and the window blur and focus listeners. */
    method SetActive(active: bool)
      requires Valid()
      modifies this
      ensures Valid()
      ensures isActive == active
      ensures sessions == old(sessions) && scrolledTweets == old(scrolledTweets)
      ensures engagedTweets == old(engagedTweets)
      ensures currentSessionStart == old(currentSessionStart)
      ensures currentSessionSeconds == old(currentSessionSeconds)
    {
      isActive := active;
    }

    /** endSession; the result says whether saveStats was called. */
    method EndSession() returns (saved: bool)
      requires Valid()
      modifies this
      ensures Valid()
      ensures saved <==> old(currentSessionSeconds) > 0
      ensures saved ==> sessions == old(sessions) + [Session(old(currentSessionStart).value, old(currentSessionSeconds))]
      ensures !saved ==> sessions == old(sessions)
      ensures scrolledTweets == old(scrolledTweets) && engagedTweets == old(engagedTweets)
      ensures currentSessionStart == old(currentSessionStart)
      ensures currentSessionSeconds == old(currentSessionSeconds) && isActive == old(isActive)
    {
      saved := currentSessionSeconds > 0;
      if saved {
        sessions := sessions + [Session(currentSessionStart.value, currentSessionSeconds)];
      }
    }

    /** getTimeStats at time `now`. */
    method GetTimeStats(now: int) returns (r: TimeStats)
      ensures r.last24hRaw == currentSessionSeconds + SecondsSince(sessions, now - DayMs)
      ensures r.last7dRaw == currentSessionSeconds + SecondsSince(sessions, now - WeekMs)
      ensures currentSessionSeconds <= r.last24hRaw <= r.last7dRaw
      ensures r.last24h == FormatTime(r.last24hRaw) && r.last7d == FormatTime(r.last7dRaw)
    {
      var oneDayAgo := now - DayMs;
      var sevenDaysAgo := now - WeekMs;
      var last24h := currentSessionSeconds;
      var last7d := currentSessionSeconds;
      for i := 0 to |sessions|
        invariant last24h == currentSessionSeconds + SecondsSince(sessions[..i], oneDayAgo)
        invariant last7d == currentSessionSeconds + SecondsSince(sessions[..i], sevenDaysAgo)
      {
        assert sessions[..i + 1][..i] == sessions[..i];
        var sessionTime := sessions[i].date;
        if sessionTime > oneDayAgo {
          last24h := last24h + sessions[i].seconds;
        }
        if sessionTime > sevenDaysAgo {
          last7d := last7d + sessions[i].seconds;
        }
      }
      assert sessions[..|sessions|] == sessions;
      SecondsMonotone(sessions, sevenDaysAgo, oneDayAgo);
      r := TimeStats(FormatTime(last24h), FormatTime(last7d), last24h, last7d);
    }

    /** getScrolledTweetsCount at time `now`. */
    method GetScrolledTweetsCount(now: int) returns (last24h: nat, last7d: nat)
      ensures last24h == CountSince(scrolledTweets, now - DayMs)
      ensures last7d == CountSince(scrolledTweets, now - WeekMs)
      ensures last24h <= last7d <= |scrolledTweets|
    {
      last24h := 0;
      last7d := 0;
      for i := 0 to |scrolledTweets|
        invariant last24h == CountSince(scrolledTweets[..i], now - DayMs)
        invariant last7d == CountSince(scrolledTweets[..i], now - WeekMs)
      {
        assert scrolledTweets[..i + 1][..i] == scrolledTweets[..i];
        if scrolledTweets[i].timestamp > now - DayMs {
          last24h := last24h + 1;
        }
        if scrolledTweets[i].timestamp > now - WeekMs {
          last7d := last7d + 1;
        }
      }
      assert scrolledTweets[..|scrolledTweets|] == scrolledTweets;
      CountMonotone(scrolledTweets, now - WeekMs, now - DayMs);
    }

    /** `scrolledTweets.some(t => t.id === id)`. */
    method IsTracked(id: string) returns (found: bool)
      ensures found <==> Tracked(scrolledTweets, id)
    {
      found := false;
      var i := 0;
      while i < |scrolledTweets|
        invariant 0 <= i <= |scrolledTweets|
        invariant forall j :: 0 <= j < i ==> scrolledTweets[j].id != id
      {
        if scrolledTweets[i].id == id {
          return true;
        }
        i := i + 1;
      }
    }

    /** trackScrolledTweet at time `now`. */
    method TrackScrolledTweet(id: Option<string>, now: int)
      requires Valid()
      modifies this
      ensures Valid()
      ensures !Falsy(id) && !Tracked(old(scrolledTweets), id.value) ==>
                scrolledTweets == old(scrolledTweets) + [Scrolled(id.value, now)]
      ensures Falsy(id) || Tracked(old(scrolledTweets), id.value) ==> scrolledTweets == old(scrolledTweets)
      ensures !Falsy(id) ==> Tracked(scrolledTweets, id.value)
      ensures sessions == old(sessions) && engagedTweets == old(engagedTweets)
      ensures currentSessionStart == old(currentSessionStart)
      ensures currentSessionSeconds == old(currentSessionSeconds) && isActive == old(isActive)
    {
      if !Falsy(id) {
        var exists_ := IsTracked(id.value);
        if !exists_ {
          scrolledTweets := scrolledTweets + [Scrolled(id.value, now)];
          assert scrolledTweets[|scrolledTweets| - 1].id == id.value;
        }
      }
    }

    /** trackEngagement: insertion into the engaged set. */
    method TrackEngagement(id: Option<string>)
      requires Valid()
      modifies this
      ensures Valid()
      ensures Falsy(id) ==> engagedTweets == old(engagedTweets)
      ensures !Falsy(id) ==> (set x | x in engagedTweets) == (set x | x in old(engagedTweets)) + {id.value}
      ensures !Falsy(id) && id.value !in old(engagedTweets) ==> engagedTweets == old(engagedTweets) + [id.value]
      ensures Falsy(id) || id.value in old(engagedTweets) ==> engagedTweets == old(engagedTweets)
      ensures sessions == old(sessions) && scrolledTweets == old(scrolledTweets)
      ensures currentSessionStart == old(currentSessionStart)
      ensures currentSessionSeconds == old(currentSessionSeconds) && isActive == old(isActive)
    {
      if !Falsy(id) && id.value !in engagedTweets {
        engagedTweets := engagedTweets + [id.value];
      }
    }

    /** cleanOldData at time `now`. */
    method CleanOldData(now: int)
      requires Valid()
      modifies this
      ensures Valid()
      ensures sessions == Keep(old(sessions), SessionAfter(now - WeekMs))
      ensures scrolledTweets == Keep(old(scrolledTweets), ScrolledAfter(now - WeekMs))
      ensures engagedTweets == old(engagedTweets)
      ensures currentSessionStart == old(currentSessionStart)
      ensures currentSessionSeconds == old(currentSessionSeconds) && isActive == old(isActive)
    {
      var sevenDaysAgo := now - WeekMs;
      sessions := Keep(sessions, SessionAfter(sevenDaysAgo));
      KeepDistinct(scrolledTweets, ScrolledAfter(sevenDaysAgo));
      scrolledTweets := Keep(scrolledTweets, ScrolledAfter(sevenDaysAgo));
    }

    /** The record saveStats writes: every session, the last 2000 scrolled
        tweets and the last 1000 engaged ids. */
    function Stored(): (r: StoredStats)
      reads this
      ensures r.sessions == sessions
      ensures |r.scrolledTweets| == if |scrolledTweets| <= StoredScrolled then |scrolledTweets| else StoredScrolled
      ensures scrolledTweets == scrolledTweets[..|scrolledTweets| - |r.scrolledTweets|] + r.scrolledTweets
      ensures |r.engagedTweets| == if |engagedTweets| <= StoredEngaged then |engagedTweets| else StoredEngaged
      ensures engagedTweets == engagedTweets[..|engagedTweets| - |r.engagedTweets|] + r.engagedTweets
    {
      StoredStats(sessions, LastN(scrolledTweets, StoredScrolled), LastN(engagedTweets, StoredEngaged))
    }
  }

  /** The trimmed snapshot keeps ids distinct. */
  lemma StoredDistinct(tweets: seq<Scrolled>, n: nat)
    requires DistinctIds(tweets)
    ensures DistinctIds(LastN(tweets, n))
  {
    if |tweets| > n {
      var d := |tweets| - n;
      var r := tweets[d..];
      forall i, j | 0 <= i < j < |r|
        ensures r[i].id != r[j].id
      {
        assert r[i] == tweets[d + i] && r[j] == tweets[d + j];
      }
    }
  }

  /** Every recorded session that started inside the window counts all
      of its seconds there: after endSession records a session, a later
      getTimeStats whose window contains its start includes it. */
  lemma {:induction false} SessionInWindowCounted(sessions: seq<Session>, i: nat, since: int)
    requires i < |sessions| && sessions[i].date > since
    ensures SecondsSince(sessions, since) >= sessions[i].seconds
  {
    var init := sessions[..|sessions| - 1];
    if i < |sessions| - 1 {
      assert init[i] == sessions[i];
      SessionInWindowCounted(init, i, since);
    }
  }

  /** Pruning at a bound no later than the window's changes no windowed
      sum: cleanOldData leaves both figures of getTimeStats as they were. */
  lemma {:induction false} PruneKeepsSeconds(sessions: seq<Session>, bound: int, since: int)
    requires bound <= since
    ensures SecondsSince(Keep(sessions, SessionAfter(bound)), since) == SecondsSince(sessions, since)
  {
    if sessions != [] {
      var init := sessions[..|sessions| - 1];
      var last := sessions[|sessions| - 1];
      assert sessions == init + [last];
      PruneKeepsSeconds(init, bound, since);
      KeepAppend(init, [last], SessionAfter(bound));
      var kept := Keep(init, SessionAfter(bound));
      if last.date > bound {
        assert Keep([last], SessionAfter(bound)) == [last] + Keep([], SessionAfter(bound));
        assert (kept + [last])[..|kept|] == kept;
      } else {
        assert Keep([last], SessionAfter(bound)) == [] + Keep([], SessionAfter(bound));
        assert kept + [] == kept;
      }
    }
  }

  /** Pruning at a bound no later than the window's changes no windowed
      count: cleanOldData leaves both figures of getScrolledTweetsCount. */
  lemma {:induction false} PruneKeepsCount(tweets: seq<Scrolled>, bound: int, since: int)
    requires bound <= since
    ensures CountSince(Keep(tweets, ScrolledAfter(bound)), since) == CountSince(tweets, since)
  {
    if tweets != [] {
      var init := tweets[..|tweets| - 1];
      var last := tweets[|tweets| - 1];
      assert tweets == init + [last];
      PruneKeepsCount(init, bound, since);
      KeepAppend(init, [last], ScrolledAfter(bound));
      var kept := Keep(init, ScrolledAfter(bound));
      if last.timestamp > bound {
        assert Keep([last], ScrolledAfter(bound)) == [last] + Keep([], ScrolledAfter(bound));
        assert (kept + [last])[..|kept|] == kept;
      } else {
        assert Keep([last], ScrolledAfter(bound)) == [] + Keep([], ScrolledAfter(bound));
        assert kept + [] == kept;
      }
    }
  }

  /** The three durations of the program's own tests. */
  lemma FormatTimeExamples()
    ensures FormatTime(30) == "30s"
    ensures FormatTime(120) == "2m"
    ensures FormatTime(3700) == "1h 1m"
  {
  }
}
