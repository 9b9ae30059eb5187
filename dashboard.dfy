/** The operations dashboard: the statistics cell, the stat cards with
    their thousands scaling, and the decision-distribution bars. */
module Dashboard {
  import opened Wrappers
  import opened Text
  import opened NumberFormat

  /** The statistics the backend reports. */
  datatype Stats = Stats(
    totalClaims: int,
    approved: int,
    rejected: int,
    partial: int,
    manualReview: int,
    autoAdjudicationRate: real,
    totalDisbursed: real,
    totalClaimed: real)

  /** A bar of the distribution: its title, its count and its width in percent. */
  datatype Bar = Bar(title: string, count: int, widthPercent: real)

  /** The four stat cards: total claims, the auto-approval rate (shown with
      a percent sign), the disbursed card's value and its "of ... claimed"
      subtext, both in thousands of rupees, and the pending-review count. */
  datatype Cards = Cards(totalClaims: int, ratePercent: real, disbursed: string, claimedSubtext: string, pendingReview: int)

  datatype DashboardView = LoadingAnalytics | Overview(cards: Cards, bars: seq<Bar>)

  /** A bar's width: the share of all claims, in percent, or 0 when there
      are no claims, so it is never a division by zero. */
  function BarWidth(count: int, total: int): (w: real)
    ensures total == 0 ==> w == 0.0
    ensures total != 0 ==> w * (total as real) == (count as real) * 100.0
  {
    if total != 0 then (count as real) / (total as real) * 100.0 else 0.0
  }

  /** The distribution, always these four bars in this order. */
  function Bars(s: Stats): (bars: seq<Bar>)
    ensures |bars| == 4
    ensures bars[0].title == "Approved" && bars[0].count == s.approved
    ensures bars[1].title == "Rejected" && bars[1].count == s.rejected
    ensures bars[2].title == "Partial" && bars[2].count == s.partial
    ensures bars[3].title == "Manual Review" && bars[3].count == s.manualReview
    ensures forall k :: 0 <= k < 4 ==> bars[k].widthPercent == BarWidth(bars[k].count, s.totalClaims)
  {
    [Bar("Approved", s.approved, BarWidth(s.approved, s.totalClaims)),
     Bar("Rejected", s.rejected, BarWidth(s.rejected, s.totalClaims)),
     Bar("Partial", s.partial, BarWidth(s.partial, s.totalClaims)),
     Bar("Manual Review", s.manualReview, BarWidth(s.manualReview, s.totalClaims))]
  }

  /** `(x / 1000).toFixed(1)`, the number before the "k": negative exactly
      when the amount is, and in magnitude within 50 rupees of the amount. */
  function Thousands(x: real): (f: Fixed1)
    ensures f == ToFixed1(x / 1000.0)
    ensures f.negative <==> x < 0.0
    ensures (f.tenths as real) * 100.0 - 50.0 <= Abs(x) < (f.tenths as real) * 100.0 + 50.0
  {
    ThousandsMagnitude(x, ToFixed1(x / 1000.0).tenths);
    ToFixed1(x / 1000.0)
  }

  /** `(x / 1000).toFixed(1)` followed by "k": read back, the digits give
      the amount in hundreds of rupees, to within 50 rupees either way. */
  function ThousandsText(x: real): (t: string)
    ensures var start := if x < 0.0 then 1 else 0;
      && start + 4 <= |t|
      && (t[0] == '-' <==> x < 0.0)
      && IsDigits(t[start..|t| - 3]) && t[|t| - 3] == '.' && '0' <= t[|t| - 2] <= '9' && t[|t| - 1] == 'k'
      && var n := DigitsValue(t[start..|t| - 3]) * 10 + DigitValue(t[|t| - 2]);
         (n as real) * 100.0 - 50.0 <= Abs(x) < (n as real) * 100.0 + 50.0
  {
    var f := Thousands(x);
    var body := Fixed1Text(f);
    var start := if x < 0.0 then 1 else 0;
    assert (body + "k")[start..|body| - 2] == body[start..|body| - 2];
    body + "k"
  }

  /** Within half a tenth of x/1000 is within 50 of x, in magnitude. */
  lemma ThousandsMagnitude(x: real, n: nat)
    requires (n as real) / 10.0 - 0.05 <= Abs(x / 1000.0) < (n as real) / 10.0 + 0.05
    ensures (n as real) * 100.0 - 50.0 <= Abs(x) < (n as real) * 100.0 + 50.0
  {
    assert Abs(x / 1000.0) == Abs(x) / 1000.0;
  }

  function CardsOf(s: Stats): Cards {
    Cards(s.totalClaims, s.autoAdjudicationRate,
          Rupee + ThousandsText(s.totalDisbursed),
          "of " + Rupee + ThousandsText(s.totalClaimed) + " claimed",
          s.manualReview)
  }

  /** Nothing but the loading message until the statistics arrive. */
  function View(stats: Option<Stats>): (v: DashboardView)
    ensures v == LoadingAnalytics <==> stats.None?
  {
    match stats
    case None => LoadingAnalytics
    case Some(s) => Overview(CardsOf(s), Bars(s))
  }

  /** A count between 0 and the total gives a width between 0 and 100. */
  lemma BarWidthBounded(count: int, total: int)
    requires 0 <= count <= total
    ensures 0.0 <= BarWidth(count, total) <= 100.0
  {
    if total != 0 {
      var w := BarWidth(count, total);
      assert w * (total as real) == (count as real) * 100.0;
      assert (count as real) * 100.0 <= (total as real) * 100.0;
    }
  }

  /** When the four counts add up to at most the total, the four bars
      together span at most the full width, and exactly the full width
      when every claim falls in one of the four statuses. */
  lemma BarsSpanAtMostFullWidth(s: Stats)
    requires s.approved >= 0 && s.rejected >= 0 && s.partial >= 0 && s.manualReview >= 0
    requires s.approved + s.rejected + s.partial + s.manualReview <= s.totalClaims
    ensures var b := Bars(s);
      b[0].widthPercent + b[1].widthPercent + b[2].widthPercent + b[3].widthPercent <= 100.0
    ensures var b := Bars(s);
      s.totalClaims > 0 && s.approved + s.rejected + s.partial + s.manualReview == s.totalClaims ==>
      b[0].widthPercent + b[1].widthPercent + b[2].widthPercent + b[3].widthPercent == 100.0
  {
    var b := Bars(s);
    if s.totalClaims != 0 {
      Distribute(b[0].widthPercent, b[1].widthPercent, b[2].widthPercent, b[3].widthPercent, s.totalClaims as real);
      SharesSum(b[0].widthPercent, b[1].widthPercent, b[2].widthPercent, b[3].widthPercent,
                (s.approved + s.rejected + s.partial + s.manualReview) as real, s.totalClaims as real);
    }
  }

  /** Four shares of a positive total, each `w * t == count * 100`, sum to
      the counts' share. */
  lemma SharesSum(w0: real, w1: real, w2: real, w3: real, counts: real, t: real)
    requires t > 0.0
    requires (w0 + w1 + w2 + w3) * t == counts * 100.0
    ensures counts <= t ==> w0 + w1 + w2 + w3 <= 100.0
    ensures counts == t ==> w0 + w1 + w2 + w3 == 100.0
  {
    ScaledComparison(w0 + w1 + w2 + w3, 100.0, t);
  }

  lemma Distribute(w0: real, w1: real, w2: real, w3: real, t: real)
    ensures (w0 + w1 + w2 + w3) * t == w0 * t + w1 * t + w2 * t + w3 * t
  {
  }

  /** Dividing both sides of a comparison by the same positive number. */
  lemma ScaledComparison(x: real, y: real, t: real)
    requires t > 0.0
    ensures x * t <= y * t ==> x <= y
    ensures x * t == y * t ==> x == y
  {
  }

  /** The pending-review card is the MANUAL_REVIEW count, the same number
      as the last bar. */
  lemma PendingReviewIsManualReview(s: Stats)
    ensures View(Some(s)).cards.pendingReview == s.manualReview == View(Some(s)).bars[3].count
  {
  }

  /** The `stats` cell, set once by the statistics request. */
  class DashboardPanel {
    var stats: Option<Stats>

    constructor ()
      ensures stats.None?
    {
      stats := None;
    }

    method FetchSucceeded(response: Stats)
      modifies this
      ensures stats == Some(response)
    {
      stats := Some(response);
    }

    /** A failed request is only logged: the panel keeps showing the
      loading message. */
    method FetchFailed()
      ensures View(stats) == View(old(stats))
    {
    }
  }
}
