/** The ad filter of content.js (removeAds): each timeline cell carries a
    verdict and a check counter in its dataset, a cell judged an ad stays
    hidden for good, a cell judged not an ad is re-inspected until it has
    been checked MaxChecks times, and the verdict is the disjunction of four
    label heuristics over the cell's tweet article. */
module Ads {
  import opened Text

  const MaxChecks: nat := 8

  /** `dataset.betteruiAd`: absent, 'false' or 'true'. */
  datatype Verdict = Unset | NotAd | Ad

  /** A span's text, and whether it sits inside the tweet body. */
  datatype Span = Span(text: string, inTweetText: bool)

  /** What the four heuristics look at in a tweet article. */
  datatype Article = Article(
    headerSpans: seq<string>,      // spans under User-Name (none without a header)
    socialContext: Option<string>, // textContent of socialContext, if present
    spans: seq<Span>,              // every span of the article, in document order
    promotedIndicator: bool)       // a promotedIndicator marker is present

  /** A timeline cell: its dataset, its display override, its article. */
  datatype Cell = Cell(verdict: Verdict, checkCount: nat, hidden: bool, article: Option<Article>)

  /** `text.trim().toLowerCase()` is 'ad' or 'promoted'. */
  predicate IsAdLabel(text: string) {
    var t := Lower(Trim(text));
    t == "ad" || t == "promoted"
  }

  /** Method 1: a header span reads "Ad" or "Promoted". */
  predicate HeaderLabel(a: Article) {
    exists i :: 0 <= i < |a.headerSpans| && IsAdLabel(a.headerSpans[i])
  }

  /** The lower-cased social context, '' when there is none. */
  function ContextText(a: Article): string {
    if a.socialContext.Some? then Lower(a.socialContext.value) else ""
  }

  /** Method 2: the social context mentions a promotion. */
  predicate ContextLabel(a: Article) {
    var t := ContextText(a);
    Contains(t, "promoted") || t == "ad" || StartsWith(t, "ad ·")
  }

  /** Method 3: an isolated "Ad"/"Promoted" span outside the tweet body. */
  predicate IsolatedLabel(a: Article) {
    exists i :: 0 <= i < |a.spans| && IsAdLabel(a.spans[i].text) && !a.spans[i].inTweetText
  }

  /** The ad verdict: any of the four heuristics. */
  predicate IsAd(a: Article) {
    HeaderLabel(a) || ContextLabel(a) || IsolatedLabel(a) || a.promotedIndicator
  }

  /** The header scan of method 1, stopping at the first label. */
  method ScanHeader(spans: seq<string>) returns (found: bool)
    ensures found <==> exists i :: 0 <= i < |spans| && IsAdLabel(spans[i])
  {
    found := false;
    var i := 0;
    while i < |spans|
      invariant 0 <= i <= |spans|
      invariant forall j :: 0 <= j < i ==> !IsAdLabel(spans[j])
    {
      if IsAdLabel(spans[i]) {
        return true;
      }
      i := i + 1;
    }
  }

  /** The span scan of method 3, stopping at the first isolated label. */
  method ScanSpans(spans: seq<Span>) returns (found: bool)
    ensures found <==> exists i :: 0 <= i < |spans| && IsAdLabel(spans[i].text) && !spans[i].inTweetText
  {
    found := false;
    var k := 0;
    while k < |spans|
      invariant 0 <= k <= |spans|
      invariant forall j :: 0 <= j < k ==> !(IsAdLabel(spans[j].text) && !spans[j].inTweetText)
    {
      if IsAdLabel(spans[k].text) && !spans[k].inTweetText {
        return true;
      }
      k := k + 1;
    }
  }

  /** The four checks run in order, each one only while no earlier one fired. */
  method DetectAd(a: Article) returns (isAd: bool)
    ensures isAd == IsAd(a)
  {
    isAd := ScanHeader(a.headerSpans);
    if !isAd && ContextLabel(a) {
      isAd := true;
    }
    if !isAd {
      isAd := ScanSpans(a.spans);
    }
    if !isAd && a.promotedIndicator {
      isAd := true;
    }
  }

  /** What one pass of removeAds does to a cell. */
  function SweepCell(c: Cell): Cell {
    if c.verdict == Ad then c.(hidden := true)
    else if c.verdict == NotAd && c.checkCount >= MaxChecks then c
    else
      var counted := c.(checkCount := c.checkCount + 1);
      match c.article
      case None => counted
      case Some(a) =>
        if IsAd(a) then counted.(verdict := Ad, hidden := true)
        else counted.(verdict := NotAd, hidden := false)
  }

  /** The body of the forEach for one cell. */
  method ProcessCell(c: Cell) returns (r: Cell)
    ensures r == SweepCell(c)
  {
    if c.verdict == Ad {
      return c.(hidden := true);
    }
    if c.verdict == NotAd && c.checkCount >= MaxChecks {
      return c;
    }
    r := c.(checkCount := c.checkCount + 1);
    if r.article.None? {
      return;
    }
    var isAd := DetectAd(r.article.value);
    if isAd {
      r := r.(verdict := Ad, hidden := true);
    } else {
      r := r.(verdict := NotAd, hidden := false);
    }
  }

  /** removeAds: one pass over every cell on the page. */
  method RemoveAds(cells: array<Cell>)
    modifies cells
    ensures forall i :: 0 <= i < cells.Length ==> cells[i] == SweepCell(old(cells[i]))
  {
    for i := 0 to cells.Length
      invariant forall j :: 0 <= j < i ==> cells[j] == SweepCell(old(cells[j]))
      invariant forall j :: i <= j < cells.Length ==> cells[j] == old(cells[j])
    {
      var r := ProcessCell(cells[i]);
      cells[i] := r;
    }
  }

  /** n passes of removeAds over the same cell. */
  function Sweeps(c: Cell, n: nat): Cell
    decreases n
  {
    if n == 0 then c else Sweeps(SweepCell(c), n - 1)
  }

  /** An ad stays an ad, is hidden on every pass, and is never counted again. */
  lemma {:induction false} AdIsSticky(c: Cell, n: nat)
    requires c.verdict == Ad
    ensures Sweeps(c, n + 1) == c.(hidden := true)
    decreases n
  {
    if n > 0 {
      AdIsSticky(c.(hidden := true), n - 1);
    }
  }

  /** A cell checked MaxChecks times and found clean is never touched again. */
  lemma {:induction false} FrozenCellUntouched(c: Cell, n: nat)
    requires c.verdict == NotAd && c.checkCount >= MaxChecks
    ensures Sweeps(c, n) == c
    decreases n
  {
    if n > 0 {
      FrozenCellUntouched(SweepCell(c), n - 1);
    }
  }

  /** A pass that is not skipped counts exactly one check, and leaves the
      display matching the verdict whenever the cell holds an article. */
  lemma CountedPass(c: Cell)
    requires c.verdict != Ad && !(c.verdict == NotAd && c.checkCount >= MaxChecks)
    ensures SweepCell(c).checkCount == c.checkCount + 1
    ensures c.article.Some? ==> SweepCell(c).verdict != Unset
                                && (SweepCell(c).hidden <==> SweepCell(c).verdict == Ad)
                                && (SweepCell(c).verdict == Ad <==> IsAd(c.article.value))
    ensures c.article.None? ==> SweepCell(c) == c.(checkCount := c.checkCount + 1)
  {
  }

  /** A cell without an article never receives a verdict, so it is never
      frozen: every pass counts it. */
  lemma {:induction false} ArticlelessNeverFrozen(c: Cell, n: nat)
    requires c.verdict == Unset && c.article.None?
    ensures Sweeps(c, n) == c.(checkCount := c.checkCount + n)
    decreases n
  {
    if n > 0 {
      ArticlelessNeverFrozen(c.(checkCount := c.checkCount + 1), n - 1);
    }
  }

  /** A clean article below the ceiling is re-checked until it has been
      checked MaxChecks times, visible throughout, and then left alone. */
  lemma {:induction false} CleanCellReachesCeiling(c: Cell, n: nat)
    requires c.verdict != Ad && c.checkCount < MaxChecks
    requires c.article.Some? && !IsAd(c.article.value)
    ensures Sweeps(c, n).checkCount == if c.checkCount + n < MaxChecks then c.checkCount + n else MaxChecks
    ensures n > 0 ==> Sweeps(c, n).verdict == NotAd && !Sweeps(c, n).hidden
    decreases n
  {
    if n > 0 {
      var c1 := SweepCell(c);
      if c1.checkCount < MaxChecks {
        CleanCellReachesCeiling(c1, n - 1);
      } else {
        FrozenCellUntouched(c1, n - 1);
      }
    }
  }

  /** A clean verdict is not final below the ceiling: a label that renders
      late turns the cell into a hidden ad on the next pass. */
  lemma LateLabelHides(c: Cell, n: nat)
    requires c.verdict == NotAd && c.checkCount < MaxChecks
    requires c.article.Some? && IsAd(c.article.value)
    ensures SweepCell(c) == c.(verdict := Ad, hidden := true, checkCount := c.checkCount + 1)
    ensures Sweeps(c, n + 2) == SweepCell(c)
  {
    AdIsSticky(SweepCell(c), n);
  }
}
