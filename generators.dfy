/** The four synthetic series generators. Each walks the inclusive span [start, end] one
    day at a time and appends one record per day, drawing its fields from `draws` in the
    order the record's fields are written. */
module Generators {
  import opened Calendar
  import opened Sampling
  import opened Records

  // Weekend damping factors, one per domain (weekday factor is always 1).
  const EmailWeekend: real := 0.3
  const EmailResponseWeekend: real := 0.7
  const DocumentWeekend: real := 0.2
  const MeetingWeekend: real := 0.1
  const ProductivityWeekend: real := 0.6
  const CollaborationWeekend: real := 0.5
  const EfficiencyWeekend: real := 0.6

  /** The labels a meeting's sentiment is drawn from. */
  const Sentiments: seq<string> := ["positive", "neutral"]

  // ---------------------------------------------------------------------------
  // Email

  /** Envelope of one email record: weekday and weekend bounds of every field;
      `sentiment` is never damped. */
  predicate EmailInEnvelope(e: EmailRecord)
  {
    && (if IsWeekend(e.date) then
          && 9 <= e.sent <= 23 && 18 <= e.received <= 41 && 1 <= e.priority <= 5
          && 59 <= e.responseRate <= 69
        else
          && 30 <= e.sent <= 79 && 60 <= e.received <= 139 && 5 <= e.priority <= 19
          && 85 <= e.responseRate <= 99)
    && 75 <= e.sentiment <= 94
  }

  /** The record for `day` from its five draws (sent, received, priority, responseRate, sentiment). */
  function EmailOn(day: Day, r: seq<Unit>): (e: EmailRecord)
    requires |r| == 5
    ensures e.date == day && EmailInEnvelope(e)
  {
    var activity := Damping(day, EmailWeekend);
    EmailRecord(day,
      Field(30, 50, activity, r[0]),
      Field(60, 80, activity, r[1]),
      Field(5, 15, activity, r[2]),
      Field(85, 15, Damping(day, EmailResponseWeekend), r[3]),
      Field(75, 20, 1.0, r[4]))
  }

  /** The email series over [start, end]: day `start + i` uses draws 5i .. 5i + 4. */
  function EmailSeries(start: Day, end: Day, draws: seq<Unit>): (s: seq<EmailRecord>)
    requires |draws| >= 5 * DayCount(start, end)
    ensures |s| == DayCount(start, end)
    ensures Contiguous(s, EmailDate, start)
    ensures forall i :: 0 <= i < |s| ==> EmailInEnvelope(s[i])
  {
    seq(DayCount(start, end), i requires 0 <= i < DayCount(start, end) =>
      EmailOn(start + i, draws[5 * i .. 5 * i + 5]))
  }

  method GenerateEmailData(start: Day, end: Day, draws: seq<Unit>) returns (data: seq<EmailRecord>)
    requires |draws| >= 5 * DayCount(start, end)
    ensures data == EmailSeries(start, end, draws)
    ensures |data| == DayCount(start, end) && Contiguous(data, EmailDate, start)
  {
    data := [];
    var current := start;
    var next := 0;  // index of the first unused draw
    while current <= end
      invariant current == start + |data| && next == 5 * |data|
      invariant |data| <= DayCount(start, end)
      invariant data == EmailSeries(start, end, draws)[..|data|]
      decreases end - current
    {
      data := data + [EmailOn(current, draws[next .. next + 5])];
      next := next + 5;
      current := current + 1;
    }
  }

  // ---------------------------------------------------------------------------
  // Documents

  /** Envelope of one document record; every field is damped on weekends. */
  predicate DocumentInEnvelope(d: DocumentRecord)
  {
    if IsWeekend(d.date) then
      && 30 <= d.accessed <= 69 && 2 <= d.created <= 7
      && 8 <= d.modified <= 23 && 4 <= d.shared <= 11
    else
      && 150 <= d.accessed <= 349 && 10 <= d.created <= 39
      && 40 <= d.modified <= 119 && 20 <= d.shared <= 59
  }

  /** The record for `day` from its four draws (accessed, created, modified, shared). */
  function DocumentOn(day: Day, r: seq<Unit>): (d: DocumentRecord)
    requires |r| == 4
    ensures d.date == day && DocumentInEnvelope(d)
  {
    var activity := Damping(day, DocumentWeekend);
    DocumentRecord(day,
      Field(150, 200, activity, r[0]),
      Field(10, 30, activity, r[1]),
      Field(40, 80, activity, r[2]),
      Field(20, 40, activity, r[3]))
  }

  /** The document series over [start, end]: day `start + i` uses draws 4i .. 4i + 3. */
  function DocumentSeries(start: Day, end: Day, draws: seq<Unit>): (s: seq<DocumentRecord>)
    requires |draws| >= 4 * DayCount(start, end)
    ensures |s| == DayCount(start, end)
    ensures Contiguous(s, DocumentDate, start)
    ensures forall i :: 0 <= i < |s| ==> DocumentInEnvelope(s[i])
  {
    seq(DayCount(start, end), i requires 0 <= i < DayCount(start, end) =>
      DocumentOn(start + i, draws[4 * i .. 4 * i + 4]))
  }

  method GenerateDocumentData(start: Day, end: Day, draws: seq<Unit>) returns (data: seq<DocumentRecord>)
    requires |draws| >= 4 * DayCount(start, end)
    ensures data == DocumentSeries(start, end, draws)
    ensures |data| == DayCount(start, end) && Contiguous(data, DocumentDate, start)
  {
    data := [];
    var current := start;
    var next := 0;
    while current <= end
      invariant current == start + |data| && next == 4 * |data|
      invariant |data| <= DayCount(start, end)
      invariant data == DocumentSeries(start, end, draws)[..|data|]
      decreases end - current
    {
      data := data + [DocumentOn(current, draws[next .. next + 4])];
      next := next + 4;
      current := current + 1;
    }
  }

  // ---------------------------------------------------------------------------
  // Meetings

  /** `sentiments[Math.floor(r * sentiments.length)]`: "positive" exactly when r < 1/2,
      otherwise "neutral". */
  function PickSentiment(r: Unit): (s: string)
    ensures s == "positive" <==> r < 0.5
    ensures s == "positive" || s == "neutral"
  {
    Sentiments[(r * |Sentiments| as real).Floor]
  }

  /** Envelope of one meeting record. On weekends at most one meeting is held and the
      damped attendee count is always 0. The sentiment is never damped. */
  predicate MeetingInEnvelope(m: MeetingRecord)
  {
    && (if IsWeekend(m.date) then
          0 <= m.count <= 1 && 4 <= m.duration <= 10 && m.attendees == 0
        else
          3 <= m.count <= 10 && 45 <= m.duration <= 104 && 4 <= m.attendees <= 9)
    && (m.sentiment == "positive" || m.sentiment == "neutral")
  }

  /** The record for `day` from its four draws (count, duration, attendees, sentiment). */
  function MeetingOn(day: Day, r: seq<Unit>): (m: MeetingRecord)
    requires |r| == 4
    ensures m.date == day && MeetingInEnvelope(m)
  {
    var activity := Damping(day, MeetingWeekend);
    MeetingRecord(day,
      Field(3, 8, activity, r[0]),
      Field(45, 60, activity, r[1]),
      Field(4, 6, activity, r[2]),
      PickSentiment(r[3]))
  }

  /** The meeting series over [start, end]: day `start + i` uses draws 4i .. 4i + 3. */
  function MeetingSeries(start: Day, end: Day, draws: seq<Unit>): (s: seq<MeetingRecord>)
    requires |draws| >= 4 * DayCount(start, end)
    ensures |s| == DayCount(start, end)
    ensures Contiguous(s, MeetingDate, start)
    ensures forall i :: 0 <= i < |s| ==> MeetingInEnvelope(s[i])
  {
    seq(DayCount(start, end), i requires 0 <= i < DayCount(start, end) =>
      MeetingOn(start + i, draws[4 * i .. 4 * i + 4]))
  }

  method GenerateMeetingData(start: Day, end: Day, draws: seq<Unit>) returns (data: seq<MeetingRecord>)
    requires |draws| >= 4 * DayCount(start, end)
    ensures data == MeetingSeries(start, end, draws)
    ensures |data| == DayCount(start, end) && Contiguous(data, MeetingDate, start)
  {
    data := [];
    var current := start;
    var next := 0;
    while current <= end
      invariant current == start + |data| && next == 4 * |data|
      invariant |data| <= DayCount(start, end)
      invariant data == MeetingSeries(start, end, draws)[..|data|]
      decreases end - current
    {
      data := data + [MeetingOn(current, draws[next .. next + 4])];
      next := next + 4;
      current := current + 1;
    }
  }

  // ---------------------------------------------------------------------------
  // Analytics

  /** Envelope of one analytics record (productivity and efficiency x0.6, collaboration
      x0.5 on weekends). */
  predicate AnalyticsInEnvelope(a: AnalyticsRecord)
  {
    if IsWeekend(a.date) then
      48 <= a.productivity <= 59 && 35 <= a.collaboration <= 47 && 45 <= a.efficiency <= 56
    else
      80 <= a.productivity <= 99 && 70 <= a.collaboration <= 94 && 75 <= a.efficiency <= 94
  }

  /** The record for `day` from its three draws (productivity, collaboration, efficiency). */
  function AnalyticsOn(day: Day, r: seq<Unit>): (a: AnalyticsRecord)
    requires |r| == 3
    ensures a.date == day && AnalyticsInEnvelope(a)
  {
    AnalyticsRecord(day,
      Field(80, 20, Damping(day, ProductivityWeekend), r[0]),
      Field(70, 25, Damping(day, CollaborationWeekend), r[1]),
      Field(75, 20, Damping(day, EfficiencyWeekend), r[2]))
  }

  /** The analytics series over [start, end]: day `start + i` uses draws 3i .. 3i + 2. */
  function AnalyticsSeries(start: Day, end: Day, draws: seq<Unit>): (s: seq<AnalyticsRecord>)
    requires |draws| >= 3 * DayCount(start, end)
    ensures |s| == DayCount(start, end)
    ensures Contiguous(s, AnalyticsDate, start)
    ensures forall i :: 0 <= i < |s| ==> AnalyticsInEnvelope(s[i])
  {
    seq(DayCount(start, end), i requires 0 <= i < DayCount(start, end) =>
      AnalyticsOn(start + i, draws[3 * i .. 3 * i + 3]))
  }

  method GenerateAnalyticsData(start: Day, end: Day, draws: seq<Unit>) returns (data: seq<AnalyticsRecord>)
    requires |draws| >= 3 * DayCount(start, end)
    ensures data == AnalyticsSeries(start, end, draws)
    ensures |data| == DayCount(start, end) && Contiguous(data, AnalyticsDate, start)
  {
    data := [];
    var current := start;
    var next := 0;
    while current <= end
      invariant current == start + |data| && next == 3 * |data|
      invariant |data| <= DayCount(start, end)
      invariant data == AnalyticsSeries(start, end, draws)[..|data|]
      decreases end - current
    {
      data := data + [AnalyticsOn(current, draws[next .. next + 3])];
      next := next + 3;
      current := current + 1;
    }
  }
}
