/**
 * The reports page: the tickets created within a date range, the statistics over them, and
 * the CSV export. Dates are UTC milliseconds; a date picked in the form is the midnight that starts it.
 */
module Reports {
  import opened Wrappers
  import opened Seqs
  import opened Types
  import opened Helpers
  import opened TicketCounts

  const MsPerDay: int := 86400000

  /** The midnight (UTC) starting the day containing `t`: what `toISOString().split('T')[0]` keeps. */
  function DayStart(t: Time): (r: Time)
    ensures r <= t < r + MsPerDay
    ensures r % MsPerDay == 0
  {
    t - t % MsPerDay
  }

  // ---- The date range ----

  /** The form's range: `start` is unset until the tickets have loaded; `end` is a day's midnight. */
  datatype DateRange = DateRange(start: Option<Time>, end: Time)

  /** The `reduce` that keeps the earlier-created ticket, the first one on a tie. */
  function Oldest(ts: seq<Ticket>): (r: Ticket)
    requires |ts| > 0
    ensures exists k :: 0 <= k < |ts| && r == ts[k] && forall i :: 0 <= i < k ==> ts[i].createdAt > r.createdAt
    ensures forall i :: 0 <= i < |ts| ==> r.createdAt <= ts[i].createdAt
  {
    if |ts| == 1 then ts[0]
    else
      var init := ts[..|ts| - 1];
      var oldest := Oldest(init);
      assert forall i :: 0 <= i < |init| ==> init[i] == ts[i];
      var current := ts[|ts| - 1];
      if current.createdAt < oldest.createdAt then current else oldest
  }

  /** The start date once loaded: the day of the oldest ticket, or 30 days before now when there are none. */
  function DefaultStart(ts: seq<Ticket>, now: Time): (r: Time)
    ensures |ts| > 0 ==> forall i :: 0 <= i < |ts| ==> r <= ts[i].createdAt
    ensures |ts| > 0 ==> r % MsPerDay == 0 && exists i :: 0 <= i < |ts| && r <= ts[i].createdAt < r + MsPerDay
    ensures |ts| == 0 ==> r == DayStart(now - 30 * MsPerDay)
  {
    if |ts| > 0 then DayStart(Oldest(ts).createdAt) else DayStart(now - 30 * 24 * 60 * 60 * 1000)
  }

  /** The range after loading: the default start and today. */
  function LoadedRange(ts: seq<Ticket>, now: Time): DateRange
  {
    DateRange(Some(DefaultStart(ts, now)), DayStart(now))
  }

  /** Whether the ticket was created between the start and the last millisecond of the end day. */
  predicate InRange(range: DateRange, t: Ticket)
  {
    range.start.Some? && range.start.value <= t.createdAt <= range.end + MsPerDay - 1
  }

  function InRangeTest(range: DateRange): Ticket -> bool
  {
    (t: Ticket) => InRange(range, t)
  }

  /** `filteredTickets`: nothing while the start is unset, else the tickets created within the range. */
  function FilteredTickets(range: DateRange, ts: seq<Ticket>): (r: seq<Ticket>)
    ensures range.start.None? ==> r == []
    ensures forall i :: 0 <= i < |r| ==>
      r[i] in ts && range.start.Some? && range.start.value <= r[i].createdAt <= range.end + MsPerDay - 1
    ensures forall i :: 0 <= i < |ts| && InRange(range, ts[i]) ==> ts[i] in r
  {
    if range.start.None? then
      FilterNone(ts, InRangeTest(range));
      Filter(ts, InRangeTest(range))
    else Filter(ts, InRangeTest(range))
  }

  /** Right after loading, every ticket created up to now is in the report. */
  lemma LoadedRangeKeepsAll(ts: seq<Ticket>, now: Time)
    requires forall i :: 0 <= i < |ts| ==> ts[i].createdAt <= now
    ensures FilteredTickets(LoadedRange(ts, now), ts) == ts
  {
    var range := LoadedRange(ts, now);
    forall i | 0 <= i < |ts|
      ensures InRange(range, ts[i])
    {
      assert DefaultStart(ts, now) <= ts[i].createdAt;
    }
    FilterAll(ts, InRangeTest(range));
  }

  // ---- generateStats ----

  datatype Bar = Bar(name: string, count: nat, color: string)

  datatype ReportStats = ReportStats(
    totalTickets: nat,
    resolvedTickets: nat,
    resolutionRate: real,
    avgResolutionTime: real,
    ticketsByCategory: seq<Bar>,
    ticketsByPriority: seq<Bar>,
    ticketsByTechnician: seq<Bar>,
    ticketsByStatus: seq<Bar>)

  /** The `reduce` adding up `calculateResolutionTime` over tickets. */
  function TotalResolutionHours(ts: seq<Ticket>): int
  {
    if ts == [] then 0 else ResolutionTime(ts[0].createdAt, ts[0].resolvedAt) + TotalResolutionHours(ts[1..])
  }

  /** The mean rounded resolution time over tickets with `resolvedAt`, or 0 when there are none. */
  function AvgResolutionTime(ts: seq<Ticket>): real
  {
    var resolved := WithResolvedAt(ts);
    if |resolved| > 0 then TotalResolutionHours(resolved) as real / |resolved| as real else 0.0
  }

  function CategoryBars(categories: seq<Category>, ts: seq<Ticket>): (r: seq<Bar>)
    ensures |r| == |categories|
    ensures forall i :: 0 <= i < |r| ==>
      r[i] == Bar(categories[i].name, |InCategory(ts, categories[i].id)|, categories[i].color)
  {
    seq(|categories|, i requires 0 <= i < |categories| =>
      Bar(categories[i].name, |InCategory(ts, categories[i].id)|, categories[i].color))
  }

  function TechnicianBars(users: seq<User>, ts: seq<Ticket>): (r: seq<Bar>)
    ensures |r| == |Technicians(users)|
    ensures forall i :: 0 <= i < |r| ==>
      r[i] == Bar(Technicians(users)[i].name, |AssignedTo(ts, Technicians(users)[i].id)|, "")
  {
    var techs := Technicians(users);
    seq(|techs|, i requires 0 <= i < |techs| => Bar(techs[i].name, |AssignedTo(ts, techs[i].id)|, ""))
  }

  function BarTotal(bars: seq<Bar>): nat
  {
    if bars == [] then 0 else bars[0].count + BarTotal(bars[1..])
  }

  /** The four priority bars, lowest first; together they count every ticket once. */
  function PriorityBars(ts: seq<Ticket>): (r: seq<Bar>)
    ensures |r| == 4 && BarTotal(r) == |ts|
    ensures r[0].count == |WithPriority(ts, Low)| && r[1].count == |WithPriority(ts, Medium)|
    ensures r[2].count == |WithPriority(ts, High)| && r[3].count == |WithPriority(ts, Critical)|
  {
    PriorityPartition(ts);
    var r := [Bar("Baixa", |WithPriority(ts, Low)|, "#10b981"), Bar("Média", |WithPriority(ts, Medium)|, "#f59e0b"),
              Bar("Alta", |WithPriority(ts, High)|, "#f97316"), Bar("Crítica", |WithPriority(ts, Critical)|, "#ef4444")];
    BarTotalUnfold(r);
    r
  }

  /** The five status bars in workflow order; together they count every ticket once. */
  function StatusBars(ts: seq<Ticket>): (r: seq<Bar>)
    ensures |r| == 5 && BarTotal(r) == |ts|
    ensures r[0].count == |WithStatus(ts, Open)| && r[1].count == |WithStatus(ts, InProgress)|
    ensures r[2].count == |WithStatus(ts, WaitingUser)| && r[3].count == |WithStatus(ts, Resolved)|
    ensures r[4].count == |WithStatus(ts, Closed)|
  {
    StatusPartition(ts);
    var r := [Bar("Aberto", |WithStatus(ts, Open)|, "#3b82f6"), Bar("Em Andamento", |WithStatus(ts, InProgress)|, "#8b5cf6"),
              Bar("Aguardando", |WithStatus(ts, WaitingUser)|, "#f59e0b"), Bar("Resolvido", |WithStatus(ts, Resolved)|, "#10b981"),
              Bar("Fechado", |WithStatus(ts, Closed)|, "#6b7280")];
    BarTotalUnfold(r);
    r
  }

  lemma BarTotalUnfold(bars: seq<Bar>)
    ensures |bars| == 4 ==> BarTotal(bars) == bars[0].count + bars[1].count + bars[2].count + bars[3].count
    ensures |bars| == 5 ==> BarTotal(bars) == bars[0].count + bars[1].count + bars[2].count + bars[3].count + bars[4].count
  {
    if |bars| == 4 || |bars| == 5 {
      var b1, b2, b3, b4 := bars[1..], bars[2..], bars[3..], bars[4..];
      assert b1[1..] == b2 && b2[1..] == b3 && b3[1..] == b4;
      assert BarTotal(bars) == bars[0].count + BarTotal(b1);
      assert BarTotal(b1) == bars[1].count + BarTotal(b2);
      assert BarTotal(b2) == bars[2].count + BarTotal(b3);
      assert BarTotal(b3) == bars[3].count + BarTotal(b4);
      if |bars| == 5 {
        assert b4[1..] == [];
      }
    }
  }

  /**
   * The statistics over the filtered tickets. Only status `resolved` counts as resolved (closed
   * tickets do not); the rate is that share as a percentage, within [0, 100] and 0 over no tickets.
   */
  function GenerateStats(filtered: seq<Ticket>, users: seq<User>, categories: seq<Category>): (s: ReportStats)
    ensures s.totalTickets == |filtered|
    ensures s.resolvedTickets == |WithStatus(filtered, Resolved)| <= s.totalTickets
    ensures s.totalTickets == 0 ==> s.resolutionRate == 0.0
    ensures s.totalTickets > 0 ==> s.resolutionRate == (s.resolvedTickets as real / s.totalTickets as real) * 100.0
    ensures 0.0 <= s.resolutionRate <= 100.0
    ensures s.avgResolutionTime == AvgResolutionTime(filtered)
    ensures s.ticketsByPriority == PriorityBars(filtered) && s.ticketsByStatus == StatusBars(filtered)
    ensures BarTotal(s.ticketsByPriority) == s.totalTickets && BarTotal(s.ticketsByStatus) == s.totalTickets
    ensures s.ticketsByCategory == CategoryBars(categories, filtered)
    ensures s.ticketsByTechnician == TechnicianBars(users, filtered)
  {
    var total := |filtered|;
    var resolved := |WithStatus(filtered, Resolved)|;
    var statusBars := StatusBars(filtered);
    RateBounds(resolved, total);
    ReportStats(total, resolved, if total > 0 then (resolved as real / total as real) * 100.0 else 0.0,
                AvgResolutionTime(filtered), CategoryBars(categories, filtered), PriorityBars(filtered),
                TechnicianBars(users, filtered), statusBars)
  }

  lemma RateBounds(part: nat, total: nat)
    requires part <= total
    ensures total > 0 ==> 0.0 <= (part as real / total as real) * 100.0 <= 100.0
  {
    if total > 0 {
      assert part as real / total as real <= 1.0;
    }
  }

  lemma {:induction false} TotalHoursBounds(ts: seq<Ticket>, lo: int, hi: int)
    requires forall i :: 0 <= i < |ts| ==> lo <= ResolutionTime(ts[i].createdAt, ts[i].resolvedAt) <= hi
    ensures |ts| * lo <= TotalResolutionHours(ts) <= |ts| * hi
  {
    if ts != [] {
      TotalHoursBounds(ts[1..], lo, hi);
      StepBounds(|ts| - 1, lo, hi, ResolutionTime(ts[0].createdAt, ts[0].resolvedAt), TotalResolutionHours(ts[1..]));
    }
  }

  lemma StepBounds(n: int, lo: int, hi: int, h: int, rest: int)
    requires n * lo <= rest <= n * hi && lo <= h <= hi
    ensures (n + 1) * lo <= h + rest <= (n + 1) * hi
  {
    assert (n + 1) * lo == n * lo + lo && (n + 1) * hi == n * hi + hi;
  }

  /** The average lies between the smallest and the largest rounded resolution time of the resolved tickets. */
  lemma AverageWithinBounds(ts: seq<Ticket>, lo: int, hi: int)
    requires |WithResolvedAt(ts)| > 0
    requires forall i :: 0 <= i < |ts| ==> ts[i].resolvedAt.Some? ==>
      lo <= ResolutionTime(ts[i].createdAt, ts[i].resolvedAt) <= hi
    ensures lo as real <= AvgResolutionTime(ts) <= hi as real
  {
    var resolved := WithResolvedAt(ts);
    TotalHoursBounds(resolved, lo, hi);
    MeanWithin(|resolved|, TotalResolutionHours(resolved), lo, hi);
  }

  lemma MeanWithin(n: int, total: int, lo: int, hi: int)
    requires n > 0 && n * lo <= total <= n * hi
    ensures lo as real <= total as real / n as real <= hi as real
  {
    assert (n * lo) as real == n as real * lo as real;
    assert (n * hi) as real == n as real * hi as real;
  }

  // ---- CSV export ----

  /** Every `"` doubled: `replace(/"/g, '""')`. */
  function EscapeQuotes(s: string): (r: string)
    ensures |r| >= |s|
  {
    if s == [] then []
    else (if s[0] == '"' then "\"\"" else [s[0]]) + EscapeQuotes(s[1..])
  }

  /** A field between double quotes, as written. */
  function Quote(s: string): string
  {
    "\"" + s + "\""
  }

  /**
   * Reads one quoted field at the start of `s` the way RFC 4180 (section 2, rules 5 to 7) reads
   * it: a doubled quote stands for one quote, a single quote closes the field. Returns the
   * field's text and what follows the closing quote.
   */
  function ReadQuoted(s: string): (r: Option<(string, string)>)
  {
    if |s| > 0 && s[0] == '"' then ReadQuotedBody(s[1..]) else None
  }

  function ReadQuotedBody(s: string): (r: Option<(string, string)>)
    ensures r.Some? ==> |r.value.1| < |s|
  {
    if s == [] then None
    else if s[0] == '"' then
      if |s| > 1 && s[1] == '"' then
        match ReadQuotedBody(s[2..])
        case None => None
        case Some((field, rest)) => Some(("\"" + field, rest))
      else Some(("", s[1..]))
    else
      match ReadQuotedBody(s[1..])
      case None => None
      case Some((field, rest)) => Some(([s[0]] + field, rest))
  }

  /** An escaped, quoted title reads back as the title, whatever quotes it holds. */
  lemma TitleCellRoundTrip(title: string, rest: string)
    requires rest == [] || rest[0] != '"'
    ensures ReadQuoted(Quote(EscapeQuotes(title)) + rest) == Some((title, rest))
  {
    var body := EscapeQuotes(title) + "\"" + rest;
    assert Quote(EscapeQuotes(title)) + rest == "\"" + body;
    assert ("\"" + body)[1..] == body;
    EscapedBodyRoundTrip(title, rest);
  }

  lemma {:induction false} EscapedBodyRoundTrip(title: string, rest: string)
    requires rest == [] || rest[0] != '"'
    ensures ReadQuotedBody(EscapeQuotes(title) + "\"" + rest) == Some((title, rest))
  {
    var s := EscapeQuotes(title) + "\"" + rest;
    if title == [] {
      assert s == "\"" + rest;
    } else if title[0] == '"' {
      assert s == "\"\"" + (EscapeQuotes(title[1..]) + "\"" + rest);
      assert s[2..] == EscapeQuotes(title[1..]) + "\"" + rest;
      EscapedBodyRoundTrip(title[1..], rest);
      assert title == "\"" + title[1..];
    } else {
      assert s == [title[0]] + (EscapeQuotes(title[1..]) + "\"" + rest);
      assert s[1..] == EscapeQuotes(title[1..]) + "\"" + rest;
      EscapedBodyRoundTrip(title[1..], rest);
      assert title == [title[0]] + title[1..];
    }
  }

  /** A category or user name is quoted without escaping: a name holding a quote does not read back. */
  lemma UnescapedNameBreaks()
    ensures ReadQuoted(Quote("a\"b") + ",x") != Some(("a\"b", ",x"))
  {
    var s := Quote("a\"b") + ",x";
    assert s == "\"a\"b\",x";
    assert s[1..] == "a\"b\",x";
    assert s[1..][1..] == "\"b\",x";
    assert ReadQuotedBody(s[1..][1..]) == Some(("", "b\",x"));
    assert s[1..][0] == 'a';
    assert ['a'] + "" == "a";
    assert ReadQuotedBody(s[1..]) == Some(("a", "b\",x"));
  }

  /** `arr.join(sep)`: the elements with `sep` between them, "" for none. */
  function Join(xs: seq<string>, sep: char): string
  {
    if xs == [] then ""
    else if |xs| == 1 then xs[0]
    else xs[0] + [sep] + Join(xs[1..], sep)
  }

  /** The inverse of `Join`: the pieces between the separators. */
  function Split(s: string, sep: char): (r: seq<string>)
    ensures |r| >= 1
  {
    if s == [] then [""]
    else if s[0] == sep then [""] + Split(s[1..], sep)
    else
      var rest := Split(s[1..], sep);
      [[s[0]] + rest[0]] + rest[1..]
  }

  lemma {:induction false} SplitPlain(a: string, sep: char)
    requires sep !in a
    ensures Split(a, sep) == [a]
  {
    if a != [] {
      SplitPlain(a[1..], sep);
      assert a == [a[0]] + a[1..];
    }
  }

  lemma {:induction false} SplitAfterPlain(a: string, sep: char, rest: string)
    requires sep !in a
    ensures Split(a + [sep] + rest, sep) == [a] + Split(rest, sep)
  {
    var s := a + [sep] + rest;
    if a == [] {
      assert s == [sep] + rest;
    } else {
      assert s[1..] == a[1..] + [sep] + rest;
      SplitAfterPlain(a[1..], sep, rest);
      assert a == [a[0]] + a[1..];
    }
  }

  /** Splitting the joined pieces at the separator gives the pieces back when none contains it. */
  lemma {:induction false} SplitJoin(xs: seq<string>, sep: char)
    requires |xs| >= 1
    requires forall k :: 0 <= k < |xs| ==> sep !in xs[k]
    ensures Split(Join(xs, sep), sep) == xs
  {
    if |xs| == 1 {
      SplitPlain(xs[0], sep);
    } else {
      SplitAfterPlain(xs[0], sep, Join(xs[1..], sep));
      SplitJoin(xs[1..], sep);
    }
  }

  const HeaderCells: seq<string> := ["ID", "Título", "Status", "Prioridade", "Categoria", "Usuário", "Criado em", "Resolvido em"]

  /** The header line: the eight column titles joined with commas. */
  const CsvHeader: string := Join(HeaderCells, ',')

  lemma HeaderIsOneLine()
    ensures '\n' !in CsvHeader
  {
    forall k | 0 <= k < |HeaderCells|
      ensures '\n' !in HeaderCells[k]
    {
      if k == 0 { assert HeaderCells[k] == "ID"; }
      else if k == 1 { assert HeaderCells[k] == "Título"; }
      else if k == 2 { assert HeaderCells[k] == "Status"; }
      else if k == 3 { assert HeaderCells[k] == "Prioridade"; }
      else if k == 4 { assert HeaderCells[k] == "Categoria"; }
      else if k == 5 { assert HeaderCells[k] == "Usuário"; }
      else if k == 6 { assert HeaderCells[k] == "Criado em"; }
      else { assert HeaderCells[k] == "Resolvido em"; }
    }
    JoinAvoids(HeaderCells, ',', '\n');
  }

  /** A character that is neither the separator nor in any piece is not in the joined text. */
  lemma {:induction false} JoinAvoids(xs: seq<string>, sep: char, c: char)
    requires c != sep
    requires forall k :: 0 <= k < |xs| ==> c !in xs[k]
    ensures c !in Join(xs, sep)
  {
    if |xs| > 1 {
      JoinAvoids(xs[1..], sep, c);
    }
  }

  /** `x?.name || ''` after `find`. */
  function UserNameOrEmpty(users: seq<User>, id: string): string
  {
    match FindUser(users, id)
    case Some(u) => u.name
    case None => ""
  }

  function CategoryNameOrEmpty(categories: seq<Category>, id: string): string
  {
    match FindCategory(categories, id)
    case Some(c) => c.name
    case None => ""
  }

  /** The eight cells of a ticket's row; dates go through the page's `formatDate`. */
  function CsvCells(t: Ticket, users: seq<User>, categories: seq<Category>, formatDate: Time -> string): (r: seq<string>)
    ensures |r| == 8
    ensures r[7] == "" <==> t.resolvedAt.None? || formatDate(t.resolvedAt.value) == ""
  {
    [Quote(t.id), Quote(EscapeQuotes(t.title)), StatusLabel(StatusCode(t.status)),
     PriorityLabel(PriorityCode(t.priority)), Quote(CategoryNameOrEmpty(categories, t.category)),
     Quote(UserNameOrEmpty(users, t.userId)), formatDate(t.createdAt),
     if t.resolvedAt.Some? then formatDate(t.resolvedAt.value) else ""]
  }

  /** A ticket's line: its cells joined with commas. */
  function CsvRow(t: Ticket, users: seq<User>, categories: seq<Category>, formatDate: Time -> string): string
  {
    Join(CsvCells(t, users, categories, formatDate), ',')
  }

  function CsvRows(ts: seq<Ticket>, users: seq<User>, categories: seq<Category>, formatDate: Time -> string): (r: seq<string>)
    ensures |r| == |ts|
    ensures forall i :: 0 <= i < |ts| ==> r[i] == CsvRow(ts[i], users, categories, formatDate)
  {
    seq(|ts|, i requires 0 <= i < |ts| => CsvRow(ts[i], users, categories, formatDate))
  }

  /** The exported text: the header line and one line per filtered ticket. */
  function CsvContent(ts: seq<Ticket>, users: seq<User>, categories: seq<Category>, formatDate: Time -> string): string
  {
    Join([CsvHeader] + CsvRows(ts, users, categories, formatDate), '\n')
  }

  /** When no row holds a line break, the export has exactly the header and one line per ticket, in order. */
  lemma CsvLines(ts: seq<Ticket>, users: seq<User>, categories: seq<Category>, formatDate: Time -> string)
    requires forall k :: 0 <= k < |ts| ==> '\n' !in CsvRow(ts[k], users, categories, formatDate)
    ensures Split(CsvContent(ts, users, categories, formatDate), '\n')
            == [CsvHeader] + CsvRows(ts, users, categories, formatDate)
  {
    HeaderIsOneLine();
    LinesRoundTrip(CsvHeader, CsvRows(ts, users, categories, formatDate));
  }

  lemma LinesRoundTrip(header: string, rows: seq<string>)
    requires '\n' !in header
    requires forall k :: 0 <= k < |rows| ==> '\n' !in rows[k]
    ensures Split(Join([header] + rows, '\n'), '\n') == [header] + rows
  {
    var lines := [header] + rows;
    forall k | 0 <= k < |lines|
      ensures '\n' !in lines[k]
    {
      if k > 0 {
        assert lines[k] == rows[k - 1];
      }
    }
    SplitJoin(lines, '\n');
  }
}
