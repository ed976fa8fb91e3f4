/** The engine's stages chained together: a wide series is generated once, then filtered to
    a selected range and aggregated. */
module Pipeline {
  import opened Calendar
  import opened Sampling
  import opened Records
  import opened Generators
  import opened Filtering
  import opened Sums
  import opened Rounding
  import opened Aggregators

  /** The dashboard's windows: the email series generated over [today - 60, today] has 61
      records, and filtering it to [today - 30, today] keeps exactly the last 31 of them, in
      order, each dated within the window. */
  lemma DashboardWindow(today: Day, draws: seq<Unit>)
    requires |draws| >= 5 * 61
    ensures var series := EmailSeries(today - 60, today, draws);
            var window := FilterByDateRange(series, EmailDate, today - 30, today);
            && |series| == 61
            && window == series[30..]
            && |window| == 31
            && Contiguous(window, EmailDate, today - 30)
            && forall i :: 0 <= i < |window| ==> today - 30 <= window[i].date <= today
  {
    var series := EmailSeries(today - 60, today, draws);
    FilterContiguous(series, EmailDate, today - 60, today - 30, today);
  }

  /** A week of generated email has exactly two damped records: those dated Saturday and
      Sunday, which lie in the weekend envelope; the other five lie in the weekday envelope. */
  lemma EmailWeekHasTwoDampedDays(start: Day, draws: seq<Unit>)
    requires |draws| >= 5 * 7
    ensures var week := EmailSeries(start, start + 6, draws);
            && |week| == 7
            && WeekendRecords(week, EmailDate) == 2
  {
    var week := EmailSeries(start, start + 6, draws);
    ContiguousWeekendRecords(week, EmailDate, start);
    TwoWeekendDaysPerWeek(start);
  }

  /** Whatever range is selected, a non-empty filtered email series has an average
      response rate in [59, 99] and an average sentiment in [75, 94]. */
  lemma FilteredEmailAveragesInEnvelope(start: Day, end: Day, draws: seq<Unit>, from: Day, to: Day)
    requires |draws| >= 5 * DayCount(start, end)
    requires FilterByDateRange(EmailSeries(start, end, draws), EmailDate, from, to) != []
    ensures var summary := AggregateEmailData(FilterByDateRange(EmailSeries(start, end, draws), EmailDate, from, to));
            && 59 <= summary.avgResponseRate <= 99
            && 75 <= summary.avgSentiment <= 94
  {
    var series := EmailSeries(start, end, draws);
    var window := FilterByDateRange(series, EmailDate, from, to);
    forall i | 0 <= i < |window|
      ensures 59 <= ResponseRate(window[i]) <= 99 && 75 <= EmailSentiment(window[i]) <= 94
    {
      assert window[i] in series;
      var j :| 0 <= j < |series| && series[j] == window[i];
      assert EmailInEnvelope(series[j]);
    }
    MeanWithinBounds(window, ResponseRate, 59, 99);
    MeanWithinBounds(window, EmailSentiment, 75, 94);
  }

  /** Whatever range is selected, a non-empty filtered analytics series has every
      average within the union of its weekday and weekend envelopes. */
  lemma FilteredAnalyticsAveragesInEnvelope(start: Day, end: Day, draws: seq<Unit>, from: Day, to: Day)
    requires |draws| >= 3 * DayCount(start, end)
    requires FilterByDateRange(AnalyticsSeries(start, end, draws), AnalyticsDate, from, to) != []
    ensures var summary := AggregateAnalyticsData(FilterByDateRange(AnalyticsSeries(start, end, draws), AnalyticsDate, from, to));
            && 48 <= summary.avgProductivity <= 99
            && 35 <= summary.avgCollaboration <= 94
            && 45 <= summary.avgEfficiency <= 94
  {
    var series := AnalyticsSeries(start, end, draws);
    var window := FilterByDateRange(series, AnalyticsDate, from, to);
    forall i | 0 <= i < |window|
      ensures && 48 <= Productivity(window[i]) <= 99
              && 35 <= Collaboration(window[i]) <= 94
              && 45 <= Efficiency(window[i]) <= 94
    {
      assert window[i] in series;
      var j :| 0 <= j < |series| && series[j] == window[i];
      assert AnalyticsInEnvelope(series[j]);
    }
    MeanWithinBounds(window, Productivity, 48, 99);
    MeanWithinBounds(window, Collaboration, 35, 94);
    MeanWithinBounds(window, Efficiency, 45, 94);
  }

  /** The sentiment breakdown of a generated meeting series counts every day once: the
      "positive" and "neutral" labels, which add up to the number of days in the span. */
  lemma GeneratedMeetingBreakdown(start: Day, end: Day, draws: seq<Unit>)
    requires |draws| >= 4 * DayCount(start, end)
    ensures var breakdown := AggregateMeetingData(MeetingSeries(start, end, draws)).sentimentBreakdown;
            && breakdown.positive + breakdown.neutral == DayCount(start, end)
            && breakdown.positive == Sum(MeetingSeries(start, end, draws), PositiveMark)
            && breakdown.neutral == Sum(MeetingSeries(start, end, draws), NeutralMark)
  {
    var series := MeetingSeries(start, end, draws);
    assert forall i :: 0 <= i < |series| ==> MeetingInEnvelope(series[i]);
    NeutralCountsNeutralLabels(series);
  }
}
