/** The four aggregators: a single `reduce` pass that keeps running totals, followed by
    `Math.round(total / length)` for the averages, with an all-zero summary for an empty series. */
module Aggregators {
  import opened Records
  import opened Sums
  import opened Rounding

  /** A mean rounded as the aggregators round it lies between the smallest and the largest value. */
  lemma MeanWithinExtremes<T>(data: seq<T>, f: T -> int)
    requires data != []
    ensures MinOf(data, f) <= RoundedMean(Sum(data, f), |data|) <= MaxOf(data, f)
  {
    SumBounds(data, f, MinOf(data, f), MaxOf(data, f));
    MeanWithin(Sum(data, f), |data|, MinOf(data, f), MaxOf(data, f));
  }

  /** A mean of values that all lie in [lo, hi] rounds into [lo, hi]. */
  lemma MeanWithinBounds<T>(data: seq<T>, f: T -> int, lo: int, hi: int)
    requires data != []
    requires forall i :: 0 <= i < |data| ==> lo <= f(data[i]) <= hi
    ensures lo <= RoundedMean(Sum(data, f), |data|) <= hi
  {
    SumBounds(data, f, lo, hi);
    MeanWithin(Sum(data, f), |data|, lo, hi);
  }

  // ---------------------------------------------------------------------------
  // Email

  datatype EmailTotals = EmailTotals(sent: int, received: int, priority: int, responseRate: int, sentiment: int)

  datatype EmailSummary = EmailSummary(
    totalSent: int, totalReceived: int, totalPriority: int, avgResponseRate: int, avgSentiment: int)

  /** The running totals of the `reduce` pass, folded from the first record to the last;
      each total is the exact sum of its field. */
  function EmailTotalsOf(data: seq<EmailRecord>): (t: EmailTotals)
    ensures t == EmailTotals(Sum(data, Sent), Sum(data, Received), Sum(data, Priority),
                             Sum(data, ResponseRate), Sum(data, EmailSentiment))
  {
    if data == [] then EmailTotals(0, 0, 0, 0, 0)
    else
      var acc := EmailTotalsOf(data[..|data| - 1]);
      var day := data[|data| - 1];
      SumLast(data, Sent); SumLast(data, Received); SumLast(data, Priority);
      SumLast(data, ResponseRate); SumLast(data, EmailSentiment);
      EmailTotals(acc.sent + day.sent, acc.received + day.received, acc.priority + day.priority,
                  acc.responseRate + day.responseRate, acc.sentiment + day.sentiment)
  }

  function AggregateEmailData(data: seq<EmailRecord>): (s: EmailSummary)
    ensures data == [] ==> s == EmailSummary(0, 0, 0, 0, 0)
    ensures s.totalSent == Sum(data, Sent) && s.totalReceived == Sum(data, Received)
    ensures s.totalPriority == Sum(data, Priority)
    ensures data != [] ==> s.avgResponseRate == RoundedMean(Sum(data, ResponseRate), |data|)
    ensures data != [] ==> s.avgSentiment == RoundedMean(Sum(data, EmailSentiment), |data|)
  {
    if |data| == 0 then EmailSummary(0, 0, 0, 0, 0)
    else
      var totals := EmailTotalsOf(data);
      EmailSummary(totals.sent, totals.received, totals.priority,
                   RoundedMean(totals.responseRate, |data|), RoundedMean(totals.sentiment, |data|))
  }

  /** Both email averages lie between the smallest and the largest value of their field. */
  lemma EmailAveragesWithinExtremes(data: seq<EmailRecord>)
    requires data != []
    ensures MinOf(data, ResponseRate) <= AggregateEmailData(data).avgResponseRate <= MaxOf(data, ResponseRate)
    ensures MinOf(data, EmailSentiment) <= AggregateEmailData(data).avgSentiment <= MaxOf(data, EmailSentiment)
  {
    MeanWithinExtremes(data, ResponseRate);
    MeanWithinExtremes(data, EmailSentiment);
  }

  /** Reordering the records does not change the email summary. */
  lemma EmailOrderIndependent(a: seq<EmailRecord>, b: seq<EmailRecord>)
    requires multiset(a) == multiset(b)
    ensures AggregateEmailData(a) == AggregateEmailData(b)
  {
    assert |a| == |multiset(a)| == |b|;
    SumPermutation(a, b, Sent); SumPermutation(a, b, Received); SumPermutation(a, b, Priority);
    SumPermutation(a, b, ResponseRate); SumPermutation(a, b, EmailSentiment);
  }

  // ---------------------------------------------------------------------------
  // Documents

  datatype DocumentSummary = DocumentSummary(
    totalAccessed: int, totalCreated: int, totalModified: int, totalShared: int)

  /** The `reduce` pass, whose accumulator is itself the summary; no averaging. */
  function DocumentTotalsOf(data: seq<DocumentRecord>): (t: DocumentSummary)
    ensures t == DocumentSummary(Sum(data, Accessed), Sum(data, Created), Sum(data, Modified), Sum(data, Shared))
  {
    if data == [] then DocumentSummary(0, 0, 0, 0)
    else
      var acc := DocumentTotalsOf(data[..|data| - 1]);
      var day := data[|data| - 1];
      SumLast(data, Accessed); SumLast(data, Created); SumLast(data, Modified); SumLast(data, Shared);
      DocumentSummary(acc.totalAccessed + day.accessed, acc.totalCreated + day.created,
                      acc.totalModified + day.modified, acc.totalShared + day.shared)
  }

  function AggregateDocumentData(data: seq<DocumentRecord>): (s: DocumentSummary)
    ensures data == [] ==> s == DocumentSummary(0, 0, 0, 0)
    ensures s == DocumentSummary(Sum(data, Accessed), Sum(data, Created), Sum(data, Modified), Sum(data, Shared))
  {
    if |data| == 0 then DocumentSummary(0, 0, 0, 0)
    else DocumentTotalsOf(data)
  }

  /** Reordering the records does not change the document summary. */
  lemma DocumentOrderIndependent(a: seq<DocumentRecord>, b: seq<DocumentRecord>)
    requires multiset(a) == multiset(b)
    ensures AggregateDocumentData(a) == AggregateDocumentData(b)
  {
    SumPermutation(a, b, Accessed); SumPermutation(a, b, Created);
    SumPermutation(a, b, Modified); SumPermutation(a, b, Shared);
  }

  // ---------------------------------------------------------------------------
  // Meetings

  datatype MeetingTotals = MeetingTotals(count: int, duration: int, attendees: int, positive: int, neutral: int)

  datatype SentimentBreakdown = SentimentBreakdown(positive: int, neutral: int)

  datatype MeetingSummary = MeetingSummary(
    totalMeetings: int, avgDuration: int, avgAttendees: int, sentimentBreakdown: SentimentBreakdown)

  /** The running totals of the `reduce` pass. A record labelled "positive" adds one to
      `positive`; every other record adds one to `neutral`, so the two always add up to the
      number of records. */
  function MeetingTotalsOf(data: seq<MeetingRecord>): (t: MeetingTotals)
    ensures t.count == Sum(data, MeetingCount) && t.duration == Sum(data, Duration)
    ensures t.attendees == Sum(data, Attendees)
    ensures t.positive == Sum(data, PositiveMark)
    ensures t.positive + t.neutral == |data|
  {
    if data == [] then MeetingTotals(0, 0, 0, 0, 0)
    else
      var acc := MeetingTotalsOf(data[..|data| - 1]);
      var day := data[|data| - 1];
      var mark := if day.sentiment == "positive" then SentimentBreakdown(1, 0) else SentimentBreakdown(0, 1);
      SumLast(data, MeetingCount); SumLast(data, Duration); SumLast(data, Attendees);
      SumLast(data, PositiveMark);
      MeetingTotals(acc.count + day.count, acc.duration + day.duration, acc.attendees + day.attendees,
                    acc.positive + mark.positive, acc.neutral + mark.neutral)
  }

  function AggregateMeetingData(data: seq<MeetingRecord>): (s: MeetingSummary)
    ensures data == [] ==> s == MeetingSummary(0, 0, 0, SentimentBreakdown(0, 0))
    ensures s.totalMeetings == Sum(data, MeetingCount)
    ensures data != [] ==> s.avgDuration == RoundedMean(Sum(data, Duration), |data|)
    ensures data != [] ==> s.avgAttendees == RoundedMean(Sum(data, Attendees), |data|)
    ensures s.sentimentBreakdown.positive == Sum(data, PositiveMark)
    ensures s.sentimentBreakdown.positive + s.sentimentBreakdown.neutral == |data|
  {
    if |data| == 0 then MeetingSummary(0, 0, 0, SentimentBreakdown(0, 0))
    else
      var totals := MeetingTotalsOf(data);
      MeetingSummary(totals.count, RoundedMean(totals.duration, |data|), RoundedMean(totals.attendees, |data|),
                     SentimentBreakdown(totals.positive, totals.neutral))
  }

  /** When every label is "positive" or "neutral" (as the generator guarantees), the
      `neutral` count is exactly the number of records labelled "neutral". */
  lemma {:induction false} NeutralCountsNeutralLabels(data: seq<MeetingRecord>)
    requires forall i :: 0 <= i < |data| ==> data[i].sentiment == "positive" || data[i].sentiment == "neutral"
    ensures AggregateMeetingData(data).sentimentBreakdown.neutral == Sum(data, NeutralMark)
  {
    MarksCover(data);
  }

  lemma {:induction false} MarksCover(data: seq<MeetingRecord>)
    requires forall i :: 0 <= i < |data| ==> data[i].sentiment == "positive" || data[i].sentiment == "neutral"
    ensures Sum(data, PositiveMark) + Sum(data, NeutralMark) == |data|
  {
    if data != [] {
      assert forall i :: 0 <= i < |data| - 1 ==> data[1..][i] == data[i + 1];
      MarksCover(data[1..]);
    }
  }

  /** Both meeting averages lie between the smallest and the largest value of their field. */
  lemma MeetingAveragesWithinExtremes(data: seq<MeetingRecord>)
    requires data != []
    ensures MinOf(data, Duration) <= AggregateMeetingData(data).avgDuration <= MaxOf(data, Duration)
    ensures MinOf(data, Attendees) <= AggregateMeetingData(data).avgAttendees <= MaxOf(data, Attendees)
  {
    MeanWithinExtremes(data, Duration);
    MeanWithinExtremes(data, Attendees);
  }

  /** Reordering the records does not change the meeting summary. */
  lemma MeetingOrderIndependent(a: seq<MeetingRecord>, b: seq<MeetingRecord>)
    requires multiset(a) == multiset(b)
    ensures AggregateMeetingData(a) == AggregateMeetingData(b)
  {
    assert |a| == |multiset(a)| == |b|;
    SumPermutation(a, b, MeetingCount); SumPermutation(a, b, Duration);
    SumPermutation(a, b, Attendees); SumPermutation(a, b, PositiveMark);
  }

  // ---------------------------------------------------------------------------
  // Analytics

  datatype AnalyticsTotals = AnalyticsTotals(productivity: int, collaboration: int, efficiency: int)

  datatype AnalyticsSummary = AnalyticsSummary(avgProductivity: int, avgCollaboration: int, avgEfficiency: int)

  /** The running totals of the `reduce` pass; each is the exact sum of its field. */
  function AnalyticsTotalsOf(data: seq<AnalyticsRecord>): (t: AnalyticsTotals)
    ensures t == AnalyticsTotals(Sum(data, Productivity), Sum(data, Collaboration), Sum(data, Efficiency))
  {
    if data == [] then AnalyticsTotals(0, 0, 0)
    else
      var acc := AnalyticsTotalsOf(data[..|data| - 1]);
      var day := data[|data| - 1];
      SumLast(data, Productivity); SumLast(data, Collaboration); SumLast(data, Efficiency);
      AnalyticsTotals(acc.productivity + day.productivity, acc.collaboration + day.collaboration,
                      acc.efficiency + day.efficiency)
  }

  function AggregateAnalyticsData(data: seq<AnalyticsRecord>): (s: AnalyticsSummary)
    ensures data == [] ==> s == AnalyticsSummary(0, 0, 0)
    ensures data != [] ==> s == AnalyticsSummary(RoundedMean(Sum(data, Productivity), |data|),
                                                 RoundedMean(Sum(data, Collaboration), |data|),
                                                 RoundedMean(Sum(data, Efficiency), |data|))
  {
    if |data| == 0 then AnalyticsSummary(0, 0, 0)
    else
      var totals := AnalyticsTotalsOf(data);
      AnalyticsSummary(RoundedMean(totals.productivity, |data|), RoundedMean(totals.collaboration, |data|),
                       RoundedMean(totals.efficiency, |data|))
  }

  /** The three analytics averages lie between the smallest and the largest value of their field. */
  lemma AnalyticsAveragesWithinExtremes(data: seq<AnalyticsRecord>)
    requires data != []
    ensures MinOf(data, Productivity) <= AggregateAnalyticsData(data).avgProductivity <= MaxOf(data, Productivity)
    ensures MinOf(data, Collaboration) <= AggregateAnalyticsData(data).avgCollaboration <= MaxOf(data, Collaboration)
    ensures MinOf(data, Efficiency) <= AggregateAnalyticsData(data).avgEfficiency <= MaxOf(data, Efficiency)
  {
    MeanWithinExtremes(data, Productivity);
    MeanWithinExtremes(data, Collaboration);
    MeanWithinExtremes(data, Efficiency);
  }

  /** Reordering the records does not change the analytics summary. */
  lemma AnalyticsOrderIndependent(a: seq<AnalyticsRecord>, b: seq<AnalyticsRecord>)
    requires multiset(a) == multiset(b)
    ensures AggregateAnalyticsData(a) == AggregateAnalyticsData(b)
  {
    assert |a| == |multiset(a)| == |b|;
    SumPermutation(a, b, Productivity); SumPermutation(a, b, Collaboration); SumPermutation(a, b, Efficiency);
  }
}
