/**
 * The helpdesk's records: users, tickets with their timeline and internal comments,
 * categories and SLA configurations. Timestamps are integer milliseconds since the epoch;
 * the source stores them as ISO-8601 strings.
 */
module Types {
  import opened Wrappers
  import opened Seqs

  /** Milliseconds since the epoch. */
  type Time = int

  datatype Role = EndUser | Technician | Admin
  datatype Priority = Low | Medium | High | Critical
  datatype Status = Open | InProgress | WaitingUser | Resolved | Closed
  datatype EntryType = Comment | StatusChange | Assignment | PriorityChange

  /** The string code the source stores for a role. */
  function RoleCode(r: Role): string
  {
    match r
    case EndUser => "user"
    case Technician => "technician"
    case Admin => "admin"
  }

  /** The string code the source stores for a priority. */
  function PriorityCode(p: Priority): string
  {
    match p
    case Low => "low"
    case Medium => "medium"
    case High => "high"
    case Critical => "critical"
  }

  /** The string code the source stores for a status. */
  function StatusCode(s: Status): string
  {
    match s
    case Open => "open"
    case InProgress => "in_progress"
    case WaitingUser => "waiting_user"
    case Resolved => "resolved"
    case Closed => "closed"
  }

  /** Reads a priority code back; any other string is not a priority. */
  function ParsePriority(code: string): (r: Option<Priority>)
    ensures r.Some? ==> PriorityCode(r.value) == code
  {
    if code == "low" then Some(Low)
    else if code == "medium" then Some(Medium)
    else if code == "high" then Some(High)
    else if code == "critical" then Some(Critical)
    else None
  }

  /** Reads a status code back; any other string is not a status. */
  function ParseStatus(code: string): (r: Option<Status>)
    ensures r.Some? ==> StatusCode(r.value) == code
  {
    if code == "open" then Some(Open)
    else if code == "in_progress" then Some(InProgress)
    else if code == "waiting_user" then Some(WaitingUser)
    else if code == "resolved" then Some(Resolved)
    else if code == "closed" then Some(Closed)
    else None
  }

  /** Every priority's code reads back as that priority, so distinct priorities have distinct codes. */
  lemma PriorityCodeRoundTrip(p: Priority)
    ensures ParsePriority(PriorityCode(p)) == Some(p)
  {
  }

  /** Every status's code reads back as that status, so distinct statuses have distinct codes. */
  lemma StatusCodeRoundTrip(s: Status)
    ensures ParseStatus(StatusCode(s)) == Some(s)
  {
  }

  datatype User = User(
    id: string,
    name: string,
    email: string,
    password: string,
    department: string,
    position: string,
    phone: string,
    role: Role,
    createdAt: Time)

  /** One audit record of a ticket; the handlers that create entries do not stamp `createdAt`. */
  datatype TimelineEntry = TimelineEntry(
    id: string,
    ticketId: string,
    userId: string,
    userName: string,
    message: string,
    entryType: EntryType,
    createdAt: Option<Time>)

  datatype InternalComment = InternalComment(
    id: string,
    ticketId: string,
    technicianId: string,
    technicianName: string,
    message: string,
    createdAt: Option<Time>)

  datatype Ticket = Ticket(
    id: string,
    title: string,
    description: string,
    priority: Priority,
    status: Status,
    category: string,
    userId: string,
    assignedTo: Option<string>,
    attachments: seq<string>,
    timeline: seq<TimelineEntry>,
    internalComments: seq<InternalComment>,
    createdAt: Time,
    updatedAt: Time,
    resolvedAt: Option<Time>,
    slaDeadline: Time)

  datatype Category = Category(
    id: string,
    name: string,
    description: string,
    color: string,
    slaHours: int,
    isActive: bool,
    createdAt: Time)

  datatype SlaConfig = SlaConfig(
    id: string,
    priority: Priority,
    responseHours: int,
    resolutionHours: int)

  /** A ticket counts as assigned when `assignedTo` is present and not the empty string (JavaScript truthiness). */
  predicate Assigned(t: Ticket)
  {
    t.assignedTo.Some? && t.assignedTo.value != ""
  }

  /** The position of the first user with this id (`users.findIndex(u => u.id === id)`). */
  function UserIndex(us: seq<User>, id: string): (r: Option<nat>)
    ensures r.Some? ==> r.value < |us| && us[r.value].id == id
    ensures r.Some? ==> forall j :: 0 <= j < r.value ==> us[j].id != id
    ensures r.None? ==> forall j :: 0 <= j < |us| ==> us[j].id != id
  {
    IndexOf(us, (u: User) => u.id == id)
  }

  /** The first user with this id (`users.find(u => u.id === id)`). */
  function FindUser(us: seq<User>, id: string): (r: Option<User>)
    ensures r.Some? <==> UserIndex(us, id).Some?
    ensures r.Some? ==> r.value == us[UserIndex(us, id).value]
  {
    match UserIndex(us, id)
    case Some(i) => Some(us[i])
    case None => None
  }

  /** The position of the first ticket with this id. */
  function TicketIndex(ts: seq<Ticket>, id: string): (r: Option<nat>)
    ensures r.Some? ==> r.value < |ts| && ts[r.value].id == id
    ensures r.Some? ==> forall j :: 0 <= j < r.value ==> ts[j].id != id
    ensures r.None? ==> forall j :: 0 <= j < |ts| ==> ts[j].id != id
  {
    IndexOf(ts, (t: Ticket) => t.id == id)
  }

  /** The first ticket with this id. */
  function FindTicket(ts: seq<Ticket>, id: string): (r: Option<Ticket>)
    ensures r.Some? <==> TicketIndex(ts, id).Some?
    ensures r.Some? ==> r.value == ts[TicketIndex(ts, id).value]
  {
    match TicketIndex(ts, id)
    case Some(i) => Some(ts[i])
    case None => None
  }

  /** The position of the first category with this id. */
  function CategoryIndex(cs: seq<Category>, id: string): (r: Option<nat>)
    ensures r.Some? ==> r.value < |cs| && cs[r.value].id == id
    ensures r.Some? ==> forall j :: 0 <= j < r.value ==> cs[j].id != id
    ensures r.None? ==> forall j :: 0 <= j < |cs| ==> cs[j].id != id
  {
    IndexOf(cs, (c: Category) => c.id == id)
  }

  /** The first category with this id. */
  function FindCategory(cs: seq<Category>, id: string): (r: Option<Category>)
    ensures r.Some? <==> CategoryIndex(cs, id).Some?
    ensures r.Some? ==> r.value == cs[CategoryIndex(cs, id).value]
  {
    match CategoryIndex(cs, id)
    case Some(i) => Some(cs[i])
    case None => None
  }

  /** Lookups by id depend only on the ids, position by position. */
  lemma SameIdsSameIndex(a: seq<Ticket>, b: seq<Ticket>, id: string)
    requires |a| == |b| && forall j :: 0 <= j < |a| ==> a[j].id == b[j].id
    ensures TicketIndex(a, id) == TicketIndex(b, id)
  {
    var x, y := TicketIndex(a, id), TicketIndex(b, id);
    if x.Some? && y.Some? {
      assert !(x.value < y.value) && !(y.value < x.value);
    }
  }
}
