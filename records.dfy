/** The four per-day record kinds of the dashboard and their numeric projections. */
module Records {
  import opened Calendar

  datatype EmailRecord = EmailRecord(
    date: Day, sent: int, received: int, priority: int, responseRate: int, sentiment: int)

  datatype DocumentRecord = DocumentRecord(
    date: Day, accessed: int, created: int, modified: int, shared: int)

  /** `sentiment` is a free-form label; the generator only ever produces "positive" or "neutral". */
  datatype MeetingRecord = MeetingRecord(
    date: Day, count: int, duration: int, attendees: int, sentiment: string)

  datatype AnalyticsRecord = AnalyticsRecord(
    date: Day, productivity: int, collaboration: int, efficiency: int)

  // Projections, passed to the generic filter, sums and extremes.

  function EmailDate(e: EmailRecord): Day { e.date }
  function Sent(e: EmailRecord): int { e.sent }
  function Received(e: EmailRecord): int { e.received }
  function Priority(e: EmailRecord): int { e.priority }
  function ResponseRate(e: EmailRecord): int { e.responseRate }
  function EmailSentiment(e: EmailRecord): int { e.sentiment }

  function DocumentDate(d: DocumentRecord): Day { d.date }
  function Accessed(d: DocumentRecord): int { d.accessed }
  function Created(d: DocumentRecord): int { d.created }
  function Modified(d: DocumentRecord): int { d.modified }
  function Shared(d: DocumentRecord): int { d.shared }

  function MeetingDate(m: MeetingRecord): Day { m.date }
  function MeetingCount(m: MeetingRecord): int { m.count }
  function Duration(m: MeetingRecord): int { m.duration }
  function Attendees(m: MeetingRecord): int { m.attendees }
  /** 1 for a meeting labelled "positive", 0 otherwise. */
  function PositiveMark(m: MeetingRecord): int { if m.sentiment == "positive" then 1 else 0 }
  /** 1 for a meeting labelled "neutral", 0 otherwise. */
  function NeutralMark(m: MeetingRecord): int { if m.sentiment == "neutral" then 1 else 0 }

  function AnalyticsDate(a: AnalyticsRecord): Day { a.date }
  function Productivity(a: AnalyticsRecord): int { a.productivity }
  function Collaboration(a: AnalyticsRecord): int { a.collaboration }
  function Efficiency(a: AnalyticsRecord): int { a.efficiency }
}
