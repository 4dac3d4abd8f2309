/**
 * The in-memory data store: module-level arrays of users, tickets, categories and SLA
 * configurations, changed in place by the create/update/append operations. Fresh ids
 * (random in the source) and the clock are parameters; persisting to local storage is not
 * part of this model.
 */
module Store {
  import opened Wrappers
  import opened Seqs
  import opened Types

  /** The error `addTimelineEntry` and `addInternalComment` throw for an unknown ticket. */
  const TicketNotFound: string := "Ticket não encontrado"

  // ---- What callers pass to the create operations (the record minus the store-filled fields) ----

  datatype UserDraft = UserDraft(
    name: string, email: string, password: string, department: string,
    position: string, phone: string, role: Role)

  datatype TicketDraft = TicketDraft(
    title: string, description: string, priority: Priority, status: Status,
    category: string, userId: string, assignedTo: Option<string>,
    attachments: seq<string>, resolvedAt: Option<Time>, slaDeadline: Time)

  datatype CategoryDraft = CategoryDraft(
    name: string, description: string, color: string, slaHours: int, isActive: bool)

  datatype TimelineDraft = TimelineDraft(
    ticketId: string, userId: string, userName: string, message: string,
    entryType: EntryType, createdAt: Option<Time>)

  datatype CommentDraft = CommentDraft(
    ticketId: string, technicianId: string, technicianName: string, message: string,
    createdAt: Option<Time>)

  function UserDraftOf(u: User): UserDraft
  {
    UserDraft(u.name, u.email, u.password, u.department, u.position, u.phone, u.role)
  }

  function TicketDraftOf(t: Ticket): TicketDraft
  {
    TicketDraft(t.title, t.description, t.priority, t.status, t.category, t.userId,
                t.assignedTo, t.attachments, t.resolvedAt, t.slaDeadline)
  }

  function CategoryDraftOf(c: Category): CategoryDraft
  {
    CategoryDraft(c.name, c.description, c.color, c.slaHours, c.isActive)
  }

  function TimelineDraftOf(e: TimelineEntry): TimelineDraft
  {
    TimelineDraft(e.ticketId, e.userId, e.userName, e.message, e.entryType, e.createdAt)
  }

  function CommentDraftOf(c: InternalComment): CommentDraft
  {
    CommentDraft(c.ticketId, c.technicianId, c.technicianName, c.message, c.createdAt)
  }

  /** The user `createUser` stores: the draft plus a fresh id and creation time. */
  function NewUser(d: UserDraft, id: string, now: Time): (u: User)
    ensures UserDraftOf(u) == d && u.id == id && u.createdAt == now
  {
    User(id, d.name, d.email, d.password, d.department, d.position, d.phone, d.role, now)
  }

  /** The ticket `createTicket` stores: empty logs, and created and updated at the same instant. */
  function NewTicket(d: TicketDraft, id: string, now: Time): (t: Ticket)
    ensures TicketDraftOf(t) == d && t.id == id
    ensures t.timeline == [] && t.internalComments == []
    ensures t.createdAt == now && t.updatedAt == now
  {
    Ticket(id, d.title, d.description, d.priority, d.status, d.category, d.userId, d.assignedTo,
           d.attachments, [], [], now, now, d.resolvedAt, d.slaDeadline)
  }

  /** The category `createCategory` stores. */
  function NewCategory(d: CategoryDraft, id: string, now: Time): (c: Category)
    ensures CategoryDraftOf(c) == d && c.id == id && c.createdAt == now
  {
    Category(id, d.name, d.description, d.color, d.slaHours, d.isActive, now)
  }

  /** The timeline entry `addTimelineEntry` appends: the caller's fields plus a fresh id. */
  function NewEntry(d: TimelineDraft, id: string): (e: TimelineEntry)
    ensures TimelineDraftOf(e) == d && e.id == id
  {
    TimelineEntry(id, d.ticketId, d.userId, d.userName, d.message, d.entryType, d.createdAt)
  }

  /** The internal comment `addInternalComment` appends. */
  function NewComment(d: CommentDraft, id: string): (c: InternalComment)
    ensures CommentDraftOf(c) == d && c.id == id
  {
    InternalComment(id, d.ticketId, d.technicianId, d.technicianName, d.message, d.createdAt)
  }

  // ---- Partial updates: a field is overwritten exactly when the patch supplies it ----

  datatype UserPatch = UserPatch(
    id: Option<string>, name: Option<string>, email: Option<string>, password: Option<string>,
    department: Option<string>, position: Option<string>, phone: Option<string>,
    role: Option<Role>, createdAt: Option<Time>)

  /** `assignedTo` and `resolvedAt` are `Some(None)` when the caller passes the key with value `undefined`. */
  datatype TicketPatch = TicketPatch(
    id: Option<string>, title: Option<string>, description: Option<string>,
    priority: Option<Priority>, status: Option<Status>, category: Option<string>,
    userId: Option<string>, assignedTo: Option<Option<string>>, attachments: Option<seq<string>>,
    timeline: Option<seq<TimelineEntry>>, internalComments: Option<seq<InternalComment>>,
    createdAt: Option<Time>, updatedAt: Option<Time>, resolvedAt: Option<Option<Time>>,
    slaDeadline: Option<Time>)

  datatype CategoryPatch = CategoryPatch(
    id: Option<string>, name: Option<string>, description: Option<string>, color: Option<string>,
    slaHours: Option<int>, isActive: Option<bool>, createdAt: Option<Time>)

  datatype SlaConfigPatch = SlaConfigPatch(
    id: Option<string>, priority: Option<Priority>, responseHours: Option<int>,
    resolutionHours: Option<int>)

  /** A ticket patch that supplies nothing. */
  const NoTicketChanges: TicketPatch :=
    TicketPatch(None, None, None, None, None, None, None, None, None, None, None, None, None, None, None)

  /** `{ ...u, ...p }` */
  function MergeUser(u: User, p: UserPatch): User
  {
    User(p.id.GetOr(u.id), p.name.GetOr(u.name), p.email.GetOr(u.email),
         p.password.GetOr(u.password), p.department.GetOr(u.department),
         p.position.GetOr(u.position), p.phone.GetOr(u.phone), p.role.GetOr(u.role),
         p.createdAt.GetOr(u.createdAt))
  }

  /** `{ ...t, ...p }` */
  function MergeTicket(t: Ticket, p: TicketPatch): Ticket
  {
    Ticket(p.id.GetOr(t.id), p.title.GetOr(t.title), p.description.GetOr(t.description),
           p.priority.GetOr(t.priority), p.status.GetOr(t.status), p.category.GetOr(t.category),
           p.userId.GetOr(t.userId), p.assignedTo.GetOr(t.assignedTo),
           p.attachments.GetOr(t.attachments), p.timeline.GetOr(t.timeline),
           p.internalComments.GetOr(t.internalComments), p.createdAt.GetOr(t.createdAt),
           p.updatedAt.GetOr(t.updatedAt), p.resolvedAt.GetOr(t.resolvedAt),
           p.slaDeadline.GetOr(t.slaDeadline))
  }

  /** `{ ...c, ...p }` */
  function MergeCategory(c: Category, p: CategoryPatch): Category
  {
    Category(p.id.GetOr(c.id), p.name.GetOr(c.name), p.description.GetOr(c.description),
             p.color.GetOr(c.color), p.slaHours.GetOr(c.slaHours), p.isActive.GetOr(c.isActive),
             p.createdAt.GetOr(c.createdAt))
  }

  /** `{ ...c, ...p }` */
  function MergeSlaConfig(c: SlaConfig, p: SlaConfigPatch): SlaConfig
  {
    SlaConfig(p.id.GetOr(c.id), p.priority.GetOr(c.priority), p.responseHours.GetOr(c.responseHours),
              p.resolutionHours.GetOr(c.resolutionHours))
  }

  /** `{ ...t, ...p, updatedAt: now }`: the patch, then the modification time on top of it. */
  function UpdatedTicket(t: Ticket, p: TicketPatch, now: Time): (r: Ticket)
    ensures r.updatedAt == now
    ensures r.timeline == (if p.timeline.Some? then p.timeline.value else t.timeline)
  {
    MergeTicket(t, p).(updatedAt := now)
  }

  /** Merging a patch a second time changes nothing more. */
  lemma MergeTicketIdempotent(t: Ticket, p: TicketPatch)
    ensures MergeTicket(MergeTicket(t, p), p) == MergeTicket(t, p)
  {
  }

  /** An update that supplies nothing only re-stamps the modification time. */
  lemma EmptyUpdateOnlyRestamps(t: Ticket, now: Time)
    ensures UpdatedTicket(t, NoTicketChanges, now) == t.(updatedAt := now)
  {
  }

  /** An `updatedAt` in the updates is always overridden by the store's own stamp. */
  lemma UpdateOverridesUpdatedAt(t: Ticket, p: TicketPatch, stamp: Time, now: Time)
    ensures UpdatedTicket(t, p.(updatedAt := Some(stamp)), now) == UpdatedTicket(t, p, now)
  {
  }

  // ---- The ticket collection after each ticket operation, as a function of the one before ----

  /** `updateTicket`: the first ticket with the id is merged and re-stamped; an unknown id changes nothing. */
  function TicketsAfterUpdate(ts: seq<Ticket>, id: string, p: TicketPatch, now: Time): (r: seq<Ticket>)
    ensures |r| == |ts|
  {
    match TicketIndex(ts, id)
    case Some(i) => ts[i := UpdatedTicket(ts[i], p, now)]
    case None => ts
  }

  /** `addTimelineEntry` on a known id: the entry goes at the end of the first matching ticket's timeline. */
  function TicketsAfterEntry(ts: seq<Ticket>, id: string, e: TimelineEntry): (r: seq<Ticket>)
    ensures |r| == |ts|
  {
    match TicketIndex(ts, id)
    case Some(i) => ts[i := ts[i].(timeline := ts[i].timeline + [e])]
    case None => ts
  }

  /** `addInternalComment` on a known id: the comment goes at the end of the first matching ticket's comments. */
  function TicketsAfterComment(ts: seq<Ticket>, id: string, c: InternalComment): (r: seq<Ticket>)
    ensures |r| == |ts|
  {
    match TicketIndex(ts, id)
    case Some(i) => ts[i := ts[i].(internalComments := ts[i].internalComments + [c])]
    case None => ts
  }

  /**
   * `updateTicket` touches only the first ticket with the id: every other ticket is unchanged,
   * the matched one takes the supplied fields and the new stamp, and an unknown id changes nothing.
   */
  lemma UpdateTouchesOnlyFirstMatch(ts: seq<Ticket>, id: string, p: TicketPatch, now: Time)
    ensures TicketIndex(ts, id).None? ==> TicketsAfterUpdate(ts, id, p, now) == ts
    ensures TicketIndex(ts, id).Some? ==>
      var i := TicketIndex(ts, id).value;
      var r := TicketsAfterUpdate(ts, id, p, now);
      && (forall j :: 0 <= j < |ts| && j != i ==> r[j] == ts[j])
      && r[i].updatedAt == now
      && r[i] == MergeTicket(ts[i], p).(updatedAt := now)
      && (p.status.None? ==> r[i].status == ts[i].status)
      && (p.assignedTo.None? ==> r[i].assignedTo == ts[i].assignedTo)
      && (p.resolvedAt.None? ==> r[i].resolvedAt == ts[i].resolvedAt)
  {
  }

  /**
   * Appending an entry grows the matched ticket's timeline by exactly that entry at the end;
   * its other fields, its internal comments and every other ticket stay as they were.
   */
  lemma EntryAppendsOnlyToMatch(ts: seq<Ticket>, id: string, e: TimelineEntry)
    ensures TicketIndex(ts, id).None? ==> TicketsAfterEntry(ts, id, e) == ts
    ensures TicketIndex(ts, id).Some? ==>
      var i := TicketIndex(ts, id).value;
      var r := TicketsAfterEntry(ts, id, e);
      && (forall j :: 0 <= j < |ts| && j != i ==> r[j] == ts[j])
      && r[i].timeline == ts[i].timeline + [e]
      && r[i].internalComments == ts[i].internalComments
      && r[i].(timeline := ts[i].timeline) == ts[i]
  {
  }

  /** Appending an internal comment never touches any timeline. */
  lemma CommentAppendsOnlyToMatch(ts: seq<Ticket>, id: string, c: InternalComment)
    ensures TicketIndex(ts, id).None? ==> TicketsAfterComment(ts, id, c) == ts
    ensures TicketIndex(ts, id).Some? ==>
      var i := TicketIndex(ts, id).value;
      var r := TicketsAfterComment(ts, id, c);
      && (forall j :: 0 <= j < |ts| && j != i ==> r[j] == ts[j])
      && r[i].internalComments == ts[i].internalComments + [c]
      && r[i].(internalComments := ts[i].internalComments) == ts[i]
    ensures forall j :: 0 <= j < |ts| ==> TicketsAfterComment(ts, id, c)[j].timeline == ts[j].timeline
  {
  }

  /** The categories `getCategories` offers: the active ones, in stored order. */
  function ActiveCategories(cs: seq<Category>): (r: seq<Category>)
    ensures forall i :: 0 <= i < |r| ==> r[i].isActive && r[i] in cs
    ensures forall i :: 0 <= i < |cs| && cs[i].isActive ==> cs[i] in r
  {
    Filter(cs, (c: Category) => c.isActive)
  }

  /** The position of the first SLA configuration whose priority has this code. */
  function SlaConfigIndex(cs: seq<SlaConfig>, priority: string): (r: Option<nat>)
    ensures r.Some? ==> r.value < |cs| && PriorityCode(cs[r.value].priority) == priority
    ensures r.Some? ==> forall j :: 0 <= j < r.value ==> PriorityCode(cs[j].priority) != priority
    ensures r.None? ==> forall j :: 0 <= j < |cs| ==> PriorityCode(cs[j].priority) != priority
  {
    IndexOf(cs, (c: SlaConfig) => PriorityCode(c.priority) == priority)
  }

  /** The module-level `data` object. */
  class Store {
    var users: seq<User>
    var tickets: seq<Ticket>
    var categories: seq<Category>
    var slaConfig: seq<SlaConfig>

    /** The store as loaded from its initial data. */
    constructor (users0: seq<User>, tickets0: seq<Ticket>, categories0: seq<Category>, slaConfig0: seq<SlaConfig>)
      ensures users == users0 && tickets == tickets0
      ensures categories == categories0 && slaConfig == slaConfig0
    {
      users, tickets, categories, slaConfig := users0, tickets0, categories0, slaConfig0;
    }

    method GetUsers() returns (r: seq<User>)
      ensures r == users
    {
      r := users;
    }

    method GetUserById(id: string) returns (r: Option<User>)
      ensures r.Some? ==> r.value in users && r.value.id == id
      ensures r.Some? ==> r.value == users[UserIndex(users, id).value]
      ensures r.None? ==> forall i :: 0 <= i < |users| ==> users[i].id != id
    {
      r := FindUser(users, id);
    }

    method CreateUser(d: UserDraft, id: string, now: Time) returns (u: User)
      modifies this
      ensures users == old(users) + [u]
      ensures UserDraftOf(u) == d && u.id == id && u.createdAt == now
      ensures tickets == old(tickets) && categories == old(categories) && slaConfig == old(slaConfig)
    {
      u := NewUser(d, id, now);
      users := users + [u];
    }

    method UpdateUser(id: string, p: UserPatch) returns (r: Option<User>)
      modifies this
      ensures UserIndex(old(users), id).None? ==> r.None? && users == old(users)
      ensures UserIndex(old(users), id).Some? ==>
        var i := UserIndex(old(users), id).value;
        users == old(users)[i := MergeUser(old(users)[i], p)] && r == Some(users[i])
      ensures tickets == old(tickets) && categories == old(categories) && slaConfig == old(slaConfig)
    {
      var index := UserIndex(users, id);
      if index.Some? {
        var i := index.value;
        users := users[i := MergeUser(users[i], p)];
        r := Some(users[i]);
      } else {
        r := None;
      }
    }

    method GetTickets() returns (r: seq<Ticket>)
      ensures r == tickets
    {
      r := tickets;
    }

    method GetTicketById(id: string) returns (r: Option<Ticket>)
      ensures r.Some? ==> r.value in tickets && r.value.id == id
      ensures r.Some? ==> r.value == tickets[TicketIndex(tickets, id).value]
      ensures r.None? ==> forall i :: 0 <= i < |tickets| ==> tickets[i].id != id
    {
      r := FindTicket(tickets, id);
    }

    method CreateTicket(d: TicketDraft, id: string, now: Time) returns (t: Ticket)
      modifies this
      ensures tickets == old(tickets) + [t]
      ensures TicketDraftOf(t) == d && t.id == id
      ensures t.timeline == [] && t.internalComments == [] && t.createdAt == now && t.updatedAt == now
      ensures users == old(users) && categories == old(categories) && slaConfig == old(slaConfig)
    {
      t := NewTicket(d, id, now);
      tickets := tickets + [t];
    }

    method UpdateTicket(id: string, p: TicketPatch, now: Time) returns (r: Option<Ticket>)
      modifies this
      ensures tickets == TicketsAfterUpdate(old(tickets), id, p, now)
      ensures r.Some? <==> TicketIndex(old(tickets), id).Some?
      ensures r.Some? ==> r.value == tickets[TicketIndex(old(tickets), id).value]
      ensures users == old(users) && categories == old(categories) && slaConfig == old(slaConfig)
    {
      var index := TicketIndex(tickets, id);
      if index.Some? {
        var i := index.value;
        tickets := tickets[i := UpdatedTicket(tickets[i], p, now)];
        r := Some(tickets[i]);
      } else {
        r := None;
      }
    }

    method AddTimelineEntry(ticketId: string, d: TimelineDraft, id: string) returns (r: Result<TimelineEntry>)
      modifies this
      ensures TicketIndex(old(tickets), ticketId).None? ==>
        r == Failure(TicketNotFound) && tickets == old(tickets)
      ensures TicketIndex(old(tickets), ticketId).Some? ==>
        r == Success(NewEntry(d, id)) && tickets == TicketsAfterEntry(old(tickets), ticketId, r.value)
      ensures users == old(users) && categories == old(categories) && slaConfig == old(slaConfig)
    {
      var index := TicketIndex(tickets, ticketId);
      if index.None? {
        return Failure(TicketNotFound);
      }
      var i := index.value;
      var e := NewEntry(d, id);
      tickets := tickets[i := tickets[i].(timeline := tickets[i].timeline + [e])];
      r := Success(e);
    }

    method AddInternalComment(ticketId: string, d: CommentDraft, id: string) returns (r: Result<InternalComment>)
      modifies this
      ensures TicketIndex(old(tickets), ticketId).None? ==>
        r == Failure(TicketNotFound) && tickets == old(tickets)
      ensures TicketIndex(old(tickets), ticketId).Some? ==>
        r == Success(NewComment(d, id)) && tickets == TicketsAfterComment(old(tickets), ticketId, r.value)
      ensures users == old(users) && categories == old(categories) && slaConfig == old(slaConfig)
    {
      var index := TicketIndex(tickets, ticketId);
      if index.None? {
        return Failure(TicketNotFound);
      }
      var i := index.value;
      var c := NewComment(d, id);
      tickets := tickets[i := tickets[i].(internalComments := tickets[i].internalComments + [c])];
      r := Success(c);
    }

    method GetCategories() returns (r: seq<Category>)
      ensures r == ActiveCategories(categories)
    {
      r := Filter(categories, (c: Category) => c.isActive);
    }

    method CreateCategory(d: CategoryDraft, id: string, now: Time) returns (c: Category)
      modifies this
      ensures categories == old(categories) + [c]
      ensures CategoryDraftOf(c) == d && c.id == id && c.createdAt == now
      ensures users == old(users) && tickets == old(tickets) && slaConfig == old(slaConfig)
    {
      c := NewCategory(d, id, now);
      categories := categories + [c];
    }

    method UpdateCategory(id: string, p: CategoryPatch) returns (r: Option<Category>)
      modifies this
      ensures CategoryIndex(old(categories), id).None? ==> r.None? && categories == old(categories)
      ensures CategoryIndex(old(categories), id).Some? ==>
        var i := CategoryIndex(old(categories), id).value;
        categories == old(categories)[i := MergeCategory(old(categories)[i], p)] && r == Some(categories[i])
      ensures users == old(users) && tickets == old(tickets) && slaConfig == old(slaConfig)
    {
      var index := CategoryIndex(categories, id);
      if index.Some? {
        var i := index.value;
        categories := categories[i := MergeCategory(categories[i], p)];
        r := Some(categories[i]);
      } else {
        r := None;
      }
    }

    method GetSlaConfig() returns (r: seq<SlaConfig>)
      ensures r == slaConfig
    {
      r := slaConfig;
    }

    /** Keyed by the priority code, not by the configuration's id. */
    method UpdateSlaConfig(priority: string, p: SlaConfigPatch) returns (r: Option<SlaConfig>)
      modifies this
      ensures SlaConfigIndex(old(slaConfig), priority).None? ==> r.None? && slaConfig == old(slaConfig)
      ensures SlaConfigIndex(old(slaConfig), priority).Some? ==>
        var i := SlaConfigIndex(old(slaConfig), priority).value;
        slaConfig == old(slaConfig)[i := MergeSlaConfig(old(slaConfig)[i], p)] && r == Some(slaConfig[i])
      ensures users == old(users) && tickets == old(tickets) && categories == old(categories)
    {
      var index := SlaConfigIndex(slaConfig, priority);
      if index.Some? {
        var i := index.value;
        slaConfig := slaConfig[i := MergeSlaConfig(slaConfig[i], p)];
        r := Some(slaConfig[i]);
      } else {
        r := None;
      }
    }
  }
}
