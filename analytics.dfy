/** The reply of `get_analytics_report`, as a sequence of lines: the header, the early return
    while the report is still being computed, the metric sections that have data, the
    hours-and-minutes durations and the team, user and label breakdowns. The wording of each
    line is left out; a `Line` names what the line shows. */
module Analytics {
  import opened Wrappers
  import opened Text
  import opened Payload

  /** A report's `organization`: an object, shown by its name, else its id, else "Unknown";
      or any other value, shown as it is. */
  datatype Org = OrgRecord(fields: map<string, string>) | OrgText(text: string)

  /** One entry of the `teams`, `users` or `labels` list of a report: its text fields (names,
      ids, emails) and its numeric fields. */
  datatype Row = Row(fields: map<string, string>, counts: map<string, int>)

  /** The `analytics_reports` object. Absent metric objects are empty maps and absent lists
      empty sequences, which is what the tool substitutes for them; durations are whole
      seconds. */
  datatype Report = Report(
    id: Option<string>,
    status: Option<string>,
    startDate: Option<string>,
    endDate: Option<string>,
    organization: Option<Org>,
    conversations: map<string, int>,
    messages: map<string, int>,
    responseTime: map<string, nat>,
    resolutionTime: map<string, nat>,
    teams: seq<Row>,
    users: seq<Row>,
    labels: seq<Row>)

  /** The sections of the reply, in the order the tool writes them. */
  datatype Section =
    | ConversationsSection
    | MessagesSection
    | ResponseTimeSection
    | ResolutionTimeSection
    | TeamsSection
    | UsersSection
    | LabelsSection
    | RawDataSection

  /** One line of the reply. */
  datatype Line =
    | NotFound(reportId: string)
    | Title
    | ReportId(id: Option<string>)
    | Status(status: string)
    | StillProcessing
    | DateRange(start: string, end: string)
    | Organization(name: string)
    | Blank
    | Heading(section: Section)
    | Count(key: string, value: int)
    | Duration(key: string, hours: Option<nat>, minutes: nat)
    | Entry(name: string)
    | LabelCount(name: string, count: int)
    | AndMore(remaining: nat, section: Section)

  /** How many users and labels a breakdown lists. */
  const TopN := 10

  /** The statuses of a report that is not ready yet. */
  const InProgressStatuses := {"pending", "processing"}

  /** `d.get(key, default)`: the stored value when the key is present, the default otherwise. */
  function Lookup<V>(d: map<string, V>, key: string, default: V): (v: V)
    ensures key in d ==> v == d[key]
    ensures key !in d ==> v == default
  {
    if key in d then d[key] else default
  }

  /** The status the reply shows: "unknown" when the report has none. */
  function StatusOf(r: Report): string {
    if r.status.Some? then r.status.value else "unknown"
  }

  /** Whether the report is still being computed. */
  predicate InProgress(r: Report) {
    StatusOf(r) in InProgressStatuses
  }

  // ---------------------------------------------------------------------------------------
  // Durations

  /** Whole seconds as hours and minutes: `hours = s // 3600`, `minutes = (s % 3600) // 60`.
      The minutes stay below an hour and the split loses less than a minute. */
  function SplitDuration(s: nat): (hm: (nat, nat))
    ensures hm.1 < 60
    ensures hm.0 * 3600 + hm.1 * 60 <= s < hm.0 * 3600 + hm.1 * 60 + 60
  {
    var h := s / 3600;
    var rest := s % 3600;
    var m := rest / 60;
    assert s == h * 3600 + rest;
    assert rest == m * 60 + rest % 60;
    (h, m)
  }

  /** The line of one duration: none for zero seconds, otherwise its hours (shown only when
      there is at least one) and its minutes. */
  function DurationLine(key: string, s: nat): (lines: seq<Line>)
    ensures lines == [] <==> s == 0
    ensures |lines| <= 1
    ensures lines != [] ==> lines[0].Duration? && lines[0].key == key && lines[0].minutes < 60
    ensures lines != [] ==> (lines[0].hours.Some? <==> s >= 3600)
    ensures lines != [] ==>
      var h := if lines[0].hours.Some? then lines[0].hours.value else 0;
      h * 3600 + lines[0].minutes * 60 <= s < h * 3600 + lines[0].minutes * 60 + 60
  {
    if s == 0 then []
    else
      var hm := SplitDuration(s);
      [Duration(key, if hm.0 > 0 then Some(hm.0) else None, hm.1)]
  }

  // ---------------------------------------------------------------------------------------
  // Breakdowns

  /** The three breakdowns of a report. */
  datatype Breakdown = Teams | Users | Labels

  /** The heading of a breakdown. */
  function SectionOf(kind: Breakdown): Section {
    match kind
    case Teams => TeamsSection
    case Users => UsersSection
    case Labels => LabelsSection
  }

  /** The name a breakdown shows for a row: a team's name, else its id; a user's name, else
      their email; a label's name; "Unknown" when none of these is there. */
  function DisplayName(kind: Breakdown, row: Row): string {
    match kind
    case Teams => Lookup(row.fields, "name", Lookup(row.fields, "id", "Unknown"))
    case Users => Lookup(row.fields, "name", Lookup(row.fields, "email", "Unknown"))
    case Labels => Lookup(row.fields, "name", "Unknown")
  }

  /** The line that names a row: an entry heading for teams and users, a single line with its
      count for labels. */
  function EntryLine(kind: Breakdown, row: Row): Line {
    if kind == Labels then LabelCount(DisplayName(kind, row), Lookup(row.counts, "count", 0))
    else Entry(DisplayName(kind, row))
  }

  /** The lines of one row of a breakdown. */
  function RowLines(kind: Breakdown, row: Row): seq<Line> {
    match kind
    case Teams =>
      [EntryLine(kind, row),
       Count("Conversations", Lookup(row.counts, "conversations", 0)),
       Count("Messages", Lookup(row.counts, "messages", 0))]
    case Users =>
      [EntryLine(kind, row),
       Count("Conversations", Lookup(row.counts, "conversations", 0)),
       Count("Messages sent", Lookup(row.counts, "messages_sent", 0))]
    case Labels =>
      [EntryLine(kind, row)]
  }

  /** The lines of `rows`, one row after the other. */
  function Concat(kind: Breakdown, rows: seq<Row>): seq<Line>
    decreases |rows|
  {
    if rows == [] then []
    else Concat(kind, rows[..|rows| - 1]) + RowLines(kind, rows[|rows| - 1])
  }

  /** One more row adds its lines at the end. */
  lemma ConcatStep(kind: Breakdown, rows: seq<Row>, i: nat)
    requires i < |rows|
    ensures Concat(kind, rows[..i + 1]) == Concat(kind, rows[..i]) + RowLines(kind, rows[i])
  {
    assert rows[..i + 1][..i] == rows[..i];
  }

  /** The rows a breakdown lists: every team, but only the first ten users or labels. */
  function Shown(kind: Breakdown, rows: seq<Row>): (shown: seq<Row>)
    ensures shown <= rows
    ensures kind == Teams ==> shown == rows
    ensures kind != Teams ==> |shown| == Min(|rows|, TopN)
  {
    if kind == Teams then rows else rows[..Min(|rows|, TopN)]
  }

  /** The closing "and N more" line of a user or label breakdown longer than ten. */
  function More(kind: Breakdown, rows: seq<Row>): seq<Line> {
    if kind != Teams && |rows| > TopN then [AndMore(|rows| - TopN, SectionOf(kind))] else []
  }

  /** A breakdown section: nothing for an empty list; otherwise its heading, the lines of the
      listed rows, the remainder line and a blank line. */
  function BreakdownLines(kind: Breakdown, rows: seq<Row>): seq<Line> {
    if rows == [] then []
    else [Heading(SectionOf(kind))] + Concat(kind, Shown(kind, rows)) + More(kind, rows) + [Blank]
  }

  /** The loop of a breakdown (`for team in teams_data`, `for user in users_data[:10]`,
      `for label in labels_data[:10]`), appending the lines of each listed row in turn. */
  method RenderRows(kind: Breakdown, rows: seq<Row>) returns (lines: seq<Line>)
    ensures lines == Concat(kind, rows)
  {
    lines := [];
    for i := 0 to |rows|
      invariant lines == Concat(kind, rows[..i])
    {
      ConcatStep(kind, rows, i);
      lines := lines + RowLines(kind, rows[i]);
    }
    assert rows[..|rows|] == rows;
  }

  /** A breakdown section as the tool writes it: nothing for an empty list; otherwise the
      heading, the rows (the first ten only for users and labels), the remainder line and a
      blank line. */
  method RenderBreakdown(kind: Breakdown, rows: seq<Row>) returns (lines: seq<Line>)
    ensures lines == BreakdownLines(kind, rows)
  {
    if rows == [] {
      return [];
    }
    var shown := if kind == Teams then rows else rows[..Min(|rows|, TopN)];
    var entries := RenderRows(kind, shown);
    lines := [Heading(SectionOf(kind))] + entries;
    if kind != Teams && |rows| > TopN {
      lines := lines + [AndMore(|rows| - TopN, SectionOf(kind))];
    }
    lines := lines + [Blank];
  }

  // ---------------------------------------------------------------------------------------
  // Outline: the lines that give the reply its structure

  /** Whether a line is a heading, a row's name or a remainder line. */
  predicate Structural(l: Line) {
    l.Heading? || l.Entry? || l.LabelCount? || l.AndMore?
  }

  /** The structural lines of `lines`, in order. */
  function Outline(lines: seq<Line>): seq<Line>
    decreases |lines|
  {
    if lines == [] then []
    else (if Structural(lines[0]) then [lines[0]] else []) + Outline(lines[1..])
  }

  lemma {:induction false} OutlineAppend(a: seq<Line>, b: seq<Line>)
    ensures Outline(a + b) == Outline(a) + Outline(b)
    decreases |a|
  {
    if a != [] {
      var head := if Structural(a[0]) then [a[0]] else [];
      assert (a + b)[0] == a[0];
      assert (a + b)[1..] == a[1..] + b;
      OutlineAppend(a[1..], b);
      assert Outline(a + b) == head + (Outline(a[1..]) + Outline(b));
      assert head + (Outline(a[1..]) + Outline(b)) == (head + Outline(a[1..])) + Outline(b);
    } else {
      assert a + b == b;
    }
  }

  /** The name lines of `rows`, in order. */
  function EntryLines(kind: Breakdown, rows: seq<Row>): (entries: seq<Line>)
    ensures |entries| == |rows|
    ensures forall i :: 0 <= i < |rows| ==> entries[i] == EntryLine(kind, rows[i])
    decreases |rows|
  {
    if rows == [] then []
    else EntryLines(kind, rows[..|rows| - 1]) + [EntryLine(kind, rows[|rows| - 1])]
  }

  /** Of the lines of a row, only the line naming it is structural. */
  lemma RowOutline(kind: Breakdown, row: Row)
    ensures Outline(RowLines(kind, row)) == [EntryLine(kind, row)]
  {
    var lines := RowLines(kind, row);
    if kind != Labels {
      assert lines[1..][1..][1..] == [];
      assert Outline(lines[1..][1..]) == [];
    }
  }

  /** The structure of the lines of `rows`: one name line per row, in order. */
  lemma {:induction false} ConcatOutline(kind: Breakdown, rows: seq<Row>)
    ensures Outline(Concat(kind, rows)) == EntryLines(kind, rows)
    decreases |rows|
  {
    if rows != [] {
      var init, last := rows[..|rows| - 1], rows[|rows| - 1];
      ConcatOutline(kind, init);
      OutlineAppend(Concat(kind, init), RowLines(kind, last));
      RowOutline(kind, last);
    }
  }

  /** The outline a breakdown has: its heading, one name line for each listed row, and the
      remainder line. */
  function BreakdownShape(kind: Breakdown, rows: seq<Row>): seq<Line> {
    if rows == [] then [] else [Heading(SectionOf(kind))] + EntryLines(kind, Shown(kind, rows)) + More(kind, rows)
  }

  /** A breakdown lists a heading, then the names of all teams or of the first ten users or
      labels in their order, then "and N more" with N = length - 10 exactly when a user or
      label list is longer than ten. */
  lemma BreakdownOutline(kind: Breakdown, rows: seq<Row>)
    ensures Outline(BreakdownLines(kind, rows)) == BreakdownShape(kind, rows)
  {
    if rows != [] {
      var heading, body, more := [Heading(SectionOf(kind))], Concat(kind, Shown(kind, rows)), More(kind, rows);
      OutlineAppend(heading + body + more, [Blank]);
      OutlineAppend(heading + body, more);
      OutlineAppend(heading, body);
      ConcatOutline(kind, Shown(kind, rows));
      assert Outline([Blank]) == [];
      assert Outline(heading) == heading;
      assert Outline(more) == more;
    }
  }

  // ---------------------------------------------------------------------------------------
  // The whole reply

  /** The first three lines of every report found. */
  function Header(r: Report): seq<Line> {
    [Title, ReportId(r.id), Status(StatusOf(r))]
  }

  /** The date-range line: only when both dates are non-empty. */
  function DateLines(r: Report): seq<Line> {
    if TruthyText(r.startDate) && TruthyText(r.endDate) then [DateRange(r.startDate.value, r.endDate.value)] else []
  }

  /** Whether an organization value counts as present: a non-empty object or text. */
  predicate OrgPresent(org: Option<Org>) {
    match org
    case None => false
    case Some(OrgRecord(fields)) => fields != map[]
    case Some(OrgText(text)) => text != []
  }

  /** The name an organization is shown by. */
  function OrgName(org: Org): string {
    match org
    case OrgRecord(fields) => Lookup(fields, "name", Lookup(fields, "id", "Unknown"))
    case OrgText(text) => text
  }

  /** The organization line: only for a present organization. */
  function OrgLines(r: Report): seq<Line> {
    if OrgPresent(r.organization) then [Organization(OrgName(r.organization.value))] else []
  }

  /** The conversation counts, when the report has any. */
  function ConversationLines(r: Report): seq<Line> {
    if r.conversations == map[] then []
    else
      [Heading(ConversationsSection),
       Count("Total", Lookup(r.conversations, "total", 0)),
       Count("New", Lookup(r.conversations, "new", 0)),
       Count("Closed", Lookup(r.conversations, "closed", 0)),
       Count("Reopened", Lookup(r.conversations, "reopened", 0)),
       Blank]
  }

  /** The message counts, when the report has any. */
  function MessageLines(r: Report): seq<Line> {
    if r.messages == map[] then []
    else
      [Heading(MessagesSection),
       Count("Total", Lookup(r.messages, "total", 0)),
       Count("Inbound", Lookup(r.messages, "inbound", 0)),
       Count("Outbound", Lookup(r.messages, "outbound", 0)),
       Blank]
  }

  /** The average and median response times, when the report has any. */
  function ResponseLines(r: Report): seq<Line> {
    if r.responseTime == map[] then []
    else
      [Heading(ResponseTimeSection)]
      + DurationLine("Average", Lookup(r.responseTime, "average_seconds", 0))
      + DurationLine("Median", Lookup(r.responseTime, "median_seconds", 0))
      + [Blank]
  }

  /** The average resolution time, when the report has any. */
  function ResolutionLines(r: Report): seq<Line> {
    if r.resolutionTime == map[] then []
    else
      [Heading(ResolutionTimeSection)]
      + DurationLine("Average", Lookup(r.resolutionTime, "average_seconds", 0))
      + [Blank]
  }

  /** Whether the report has any of the six metrics the raw-data fallback looks at; the labels
      are not among them. */
  predicate AnyMetrics(r: Report) {
    || r.conversations != map[]
    || r.messages != map[]
    || r.responseTime != map[]
    || r.resolutionTime != map[]
    || r.teams != []
    || r.users != []
  }

  /** The raw-data heading, when none of the six metrics is there. The listing of the report's
      other keys under it is not part of this model. */
  function RawLines(r: Report): seq<Line> {
    if AnyMetrics(r) then [] else [Heading(RawDataSection)]
  }

  /** The four metric sections, in order. */
  function MetricLines(r: Report): seq<Line> {
    ConversationLines(r) + MessageLines(r) + ResponseLines(r) + ResolutionLines(r)
  }

  /** The three breakdowns, in order. */
  function BreakdownsOf(r: Report): seq<Line> {
    BreakdownLines(Teams, r.teams) + BreakdownLines(Users, r.users) + BreakdownLines(Labels, r.labels)
  }

  /** The reply of `get_analytics_report` for the report the server returned. `None` stands for
      a missing or empty `analytics_reports` object: the tool treats `{}` as not found, so a
      `Some` report is one with at least one key. */
  function ReportLines(reportId: string, report: Option<Report>): seq<Line> {
    if report.None? then [NotFound(reportId)]
    else
      var r := report.value;
      if InProgress(r) then Header(r) + [StillProcessing]
      else Header(r) + DateLines(r) + OrgLines(r) + [Blank] + MetricLines(r) + BreakdownsOf(r) + RawLines(r)
  }

  /** The metric sections as the tool writes them: each object that has data gets its heading,
      its counts or durations and a blank line. */
  method RenderMetrics(r: Report) returns (lines: seq<Line>)
    ensures lines == MetricLines(r)
  {
    lines := [];
    if r.conversations != map[] {
      lines := lines + [Heading(ConversationsSection),
                        Count("Total", Lookup(r.conversations, "total", 0)),
                        Count("New", Lookup(r.conversations, "new", 0)),
                        Count("Closed", Lookup(r.conversations, "closed", 0)),
                        Count("Reopened", Lookup(r.conversations, "reopened", 0)),
                        Blank];
    }
    assert lines == ConversationLines(r);
    if r.messages != map[] {
      lines := lines + [Heading(MessagesSection),
                        Count("Total", Lookup(r.messages, "total", 0)),
                        Count("Inbound", Lookup(r.messages, "inbound", 0)),
                        Count("Outbound", Lookup(r.messages, "outbound", 0)),
                        Blank];
    }
    assert lines == ConversationLines(r) + MessageLines(r);
    if r.responseTime != map[] {
      lines := lines + ([Heading(ResponseTimeSection)]
        + DurationLine("Average", Lookup(r.responseTime, "average_seconds", 0))
        + DurationLine("Median", Lookup(r.responseTime, "median_seconds", 0))
        + [Blank]);
    }
    assert lines == ConversationLines(r) + MessageLines(r) + ResponseLines(r);
    if r.resolutionTime != map[] {
      lines := lines + ([Heading(ResolutionTimeSection)]
        + DurationLine("Average", Lookup(r.resolutionTime, "average_seconds", 0))
        + [Blank]);
    }
  }

  /** The reply of `get_analytics_report`, accumulated section by section as the tool does. */
  method RenderReport(reportId: string, report: Option<Report>) returns (lines: seq<Line>)
    ensures lines == ReportLines(reportId, report)
  {
    if report.None? {
      return [NotFound(reportId)];
    }
    var r := report.value;
    var status := if r.status.Some? then r.status.value else "unknown";
    lines := [Title, ReportId(r.id), Status(status)];
    if status in InProgressStatuses {
      lines := lines + [StillProcessing];
      return;
    }
    if TruthyText(r.startDate) && TruthyText(r.endDate) {
      lines := lines + [DateRange(r.startDate.value, r.endDate.value)];
    }
    if OrgPresent(r.organization) {
      lines := lines + [Organization(OrgName(r.organization.value))];
    }
    lines := lines + [Blank];
    assert lines == Header(r) + DateLines(r) + OrgLines(r) + [Blank];
    var metrics := RenderMetrics(r);
    lines := lines + metrics;
    var teams := RenderBreakdown(Teams, r.teams);
    var users := RenderBreakdown(Users, r.users);
    var labels := RenderBreakdown(Labels, r.labels);
    lines := lines + (teams + users + labels);
    ghost var sections := lines;
    if !AnyMetrics(r) {
      lines := lines + [Heading(RawDataSection)];
    }
    assert lines == sections + RawLines(r);
    assert !InProgress(r);
  }

  // ---------------------------------------------------------------------------------------
  // Properties of the reply

  /** A section heading when `present`. */
  function Mark(present: bool, section: Section): seq<Line> {
    if present then [Heading(section)] else []
  }

  /** The outline of the metric sections: a heading for each of the four metric objects that
      is non-empty, in order. */
  function MetricShape(r: Report): seq<Line> {
    Mark(r.conversations != map[], ConversationsSection)
    + Mark(r.messages != map[], MessagesSection)
    + Mark(r.responseTime != map[], ResponseTimeSection)
    + Mark(r.resolutionTime != map[], ResolutionTimeSection)
  }

  /** The outline of the three breakdowns, in order. */
  function BreakdownsShape(r: Report): seq<Line> {
    BreakdownShape(Teams, r.teams) + BreakdownShape(Users, r.users) + BreakdownShape(Labels, r.labels)
  }

  /** The outline of a finished report: the metric headings, the breakdowns, and the raw-data
      heading when none of the six metrics is there. */
  function ReportShape(r: Report): seq<Line> {
    MetricShape(r) + BreakdownsShape(r) + Mark(!AnyMetrics(r), RawDataSection)
  }

  /** Lines that hold no heading, name or remainder have an empty outline. */
  lemma PlainOutline(lines: seq<Line>)
    requires forall i :: 0 <= i < |lines| ==> !Structural(lines[i])
    ensures Outline(lines) == []
    decreases |lines|
  {
    if lines != [] {
      PlainOutline(lines[1..]);
    }
  }

  /** A metric section outlines to its heading alone. */
  lemma SectionOutline(lines: seq<Line>, section: Section)
    requires lines != [] && lines[0] == Heading(section)
    requires forall i :: 0 < i < |lines| ==> !Structural(lines[i])
    ensures Outline(lines) == [Heading(section)]
  {
    PlainOutline(lines[1..]);
  }

  /** A report that was not found, or is still pending or processing, shows no section at all:
      the reply stops after its header. */
  lemma NoSectionsUntilReady(reportId: string, report: Option<Report>)
    requires report.None? || InProgress(report.value)
    ensures Outline(ReportLines(reportId, report)) == []
    ensures report.Some? ==> ReportLines(reportId, report)[|ReportLines(reportId, report)| - 1] == StillProcessing
  {
    PlainOutline(ReportLines(reportId, report));
  }

  /** A finished report shows exactly the sections that have data, in the fixed order, with
      the raw-data heading exactly when none of the six metrics is there. */
  lemma {:induction false} ReportOutline(reportId: string, r: Report)
    requires !InProgress(r)
    ensures Outline(ReportLines(reportId, Some(r))) == ReportShape(r)
  {
    var preamble := Header(r) + DateLines(r) + OrgLines(r) + [Blank];
    PlainOutline(preamble);
    MetricsOutline(r);
    BreakdownsOutline(r);
    OutlineAppend(preamble, MetricLines(r));
    OutlineAppend(preamble + MetricLines(r), BreakdownsOf(r));
    OutlineAppend(preamble + MetricLines(r) + BreakdownsOf(r), RawLines(r));
    assert Outline(RawLines(r)) == RawLines(r);
    assert [] + MetricShape(r) == MetricShape(r);
  }

  /** The metric sections outline to the headings of the non-empty metric objects. */
  lemma {:induction false} MetricsOutline(r: Report)
    ensures Outline(MetricLines(r)) == MetricShape(r)
  {
    if r.conversations != map[] {
      SectionOutline(ConversationLines(r), ConversationsSection);
    }
    if r.messages != map[] {
      SectionOutline(MessageLines(r), MessagesSection);
    }
    if r.responseTime != map[] {
      SectionOutline(ResponseLines(r), ResponseTimeSection);
    }
    if r.resolutionTime != map[] {
      SectionOutline(ResolutionLines(r), ResolutionTimeSection);
    }
    OutlineAppend(ConversationLines(r), MessageLines(r));
    OutlineAppend(ConversationLines(r) + MessageLines(r), ResponseLines(r));
    OutlineAppend(ConversationLines(r) + MessageLines(r) + ResponseLines(r), ResolutionLines(r));
  }

  /** The breakdowns outline to the outlines of the team, user and label breakdowns. */
  lemma {:induction false} BreakdownsOutline(r: Report)
    ensures Outline(BreakdownsOf(r)) == BreakdownsShape(r)
  {
    BreakdownOutline(Teams, r.teams);
    BreakdownOutline(Users, r.users);
    BreakdownOutline(Labels, r.labels);
    OutlineAppend(BreakdownLines(Teams, r.teams), BreakdownLines(Users, r.users));
    OutlineAppend(BreakdownLines(Teams, r.teams) + BreakdownLines(Users, r.users), BreakdownLines(Labels, r.labels));
  }

  /** A breakdown never holds the raw-data heading. */
  lemma NoRawHeadingInBreakdown(kind: Breakdown, rows: seq<Row>)
    ensures Heading(RawDataSection) !in BreakdownShape(kind, rows)
  {
    if rows != [] {
      var entries := EntryLines(kind, Shown(kind, rows));
      assert forall i :: 0 <= i < |entries| ==> !entries[i].Heading?;
    }
  }

  /** The raw-data heading appears exactly when the report has none of the six metrics; the
      labels do not count among them. */
  lemma RawDataIffNoMetrics(reportId: string, r: Report)
    requires !InProgress(r)
    ensures Heading(RawDataSection) in Outline(ReportLines(reportId, Some(r))) <==> !AnyMetrics(r)
  {
    ReportOutline(reportId, r);
    NoRawHeadingInBreakdown(Teams, r.teams);
    NoRawHeadingInBreakdown(Users, r.users);
    NoRawHeadingInBreakdown(Labels, r.labels);
    assert Heading(RawDataSection) !in MetricShape(r);
  }

  /** A user or label breakdown names the first ten rows at most, in their order, and ends
      with "and N more", N being the number of rows left out, exactly when there are more than
      ten. */
  lemma TopTenBreakdown(kind: Breakdown, rows: seq<Row>)
    requires kind != Teams && rows != []
    ensures var o := Outline(BreakdownLines(kind, rows));
      && |o| == 1 + Min(|rows|, TopN) + (if |rows| > TopN then 1 else 0)
      && o[0] == Heading(SectionOf(kind))
      && (forall i :: 0 <= i < Min(|rows|, TopN) ==> o[i + 1] == EntryLine(kind, rows[i]))
      && (|rows| > TopN ==> o[|o| - 1] == AndMore(|rows| - TopN, SectionOf(kind)))
  {
    BreakdownOutline(kind, rows);
  }
}
