/**
 * The ticket detail view's rules: who may edit and assign, the status/assignment update with
 * its guard and timeline entries, public and internal comments, the work timer that moves a
 * ticket to in-progress, and the `HH:MM:SS` timer display. Each handler runs against the store
 * with the component's copy of the ticket; the clock and the store's fresh entry ids are parameters.
 */
module TicketDetail {
  import opened Wrappers
  import opened Seqs
  import opened Types
  import opened Helpers
  import opened Store

  // ---- Capabilities ----

  /** Admins and technicians may edit any ticket; a requester only their own. */
  predicate CanEdit(actor: Option<User>, t: Ticket)
  {
    actor.Some? && (actor.value.role == Admin || actor.value.role == Technician || actor.value.id == t.userId)
  }

  /** Only admins and technicians may assign and run the work timer. */
  predicate CanAssign(actor: Option<User>)
  {
    actor.Some? && (actor.value.role == Admin || actor.value.role == Technician)
  }

  /** Whoever may assign may edit every ticket; an end user may edit exactly the tickets they opened. */
  lemma CapabilityRules(actor: Option<User>, t: Ticket)
    ensures CanAssign(actor) ==> CanEdit(actor, t)
    ensures actor.Some? && actor.value.role == EndUser ==>
      !CanAssign(actor) && (CanEdit(actor, t) <==> actor.value.id == t.userId)
    ensures actor.None? ==> !CanEdit(actor, t) && !CanAssign(actor)
  {
  }

  // ---- Timeline bookkeeping shared by the handlers ----

  /** The ticket collection after appending `es` one by one to the first ticket with id `id`. */
  function AppendEntries(ts: seq<Ticket>, id: string, es: seq<TimelineEntry>): (r: seq<Ticket>)
    ensures |r| == |ts|
    decreases |es|
  {
    if es == [] then ts else AppendEntries(TicketsAfterEntry(ts, id, es[0]), id, es[1..])
  }

  /** Appending to a ticket's timeline leaves every ticket's id, hence every lookup, where it was. */
  lemma EntryKeepsIndex(ts: seq<Ticket>, id: string, e: TimelineEntry, other: string)
    ensures TicketIndex(TicketsAfterEntry(ts, id, e), other) == TicketIndex(ts, other)
  {
    SameIdsSameIndex(TicketsAfterEntry(ts, id, e), ts, other);
  }

  /**
   * Appending several entries adds exactly those entries, in order, at the end of the first
   * matching ticket's timeline and changes nothing else; an unknown id changes nothing at all.
   */
  lemma {:induction false} AppendEntriesEffect(ts: seq<Ticket>, id: string, es: seq<TimelineEntry>)
    ensures TicketIndex(ts, id).None? ==> AppendEntries(ts, id, es) == ts
    ensures TicketIndex(ts, id).Some? ==>
      var i := TicketIndex(ts, id).value;
      var r := AppendEntries(ts, id, es);
      && (forall j :: 0 <= j < |ts| && j != i ==> r[j] == ts[j])
      && r[i] == ts[i].(timeline := ts[i].timeline + es)
    decreases |es|
  {
    if es != [] {
      var e := es[0];
      var next := TicketsAfterEntry(ts, id, e);
      EntryKeepsIndex(ts, id, e, id);
      AppendEntriesEffect(next, id, es[1..]);
      match TicketIndex(ts, id)
      case None =>
      case Some(i) =>
        assert next[i].timeline == ts[i].timeline + [e];
        assert ts[i].timeline + [e] + es[1..] == ts[i].timeline + es;
    }
  }

  // ---- Status and assignment update ----

  /** What the status-update button decides: nothing, or a patch and the entries to log. */
  datatype StatusUpdatePlan = Rejected | Accepted(patch: TicketPatch, entries: seq<TimelineEntry>)

  /** The entry logging a status change, as `handleStatusUpdate` words it. */
  function StatusEntry(actor: User, t: Ticket, newStatus: Status, id: string): TimelineEntry
  {
    NewEntry(TimelineDraft(t.id, actor.id, actor.name, "Status alterado para " + StatusLabel(StatusCode(newStatus)),
                           StatusChange, None), id)
  }

  /** The name the assignment entry shows: the user's name, or `undefined` for an id no user has. */
  function AssigneeName(users: seq<User>, id: string): string
  {
    match FindUser(users, id)
    case Some(u) => u.name
    case None => "undefined"
  }

  /** The entry logging an assignment. */
  function AssignmentEntry(actor: User, users: seq<User>, t: Ticket, assignee: string, id: string): TimelineEntry
  {
    NewEntry(TimelineDraft(t.id, actor.id, actor.name, "Chamado atribuído para " + AssigneeName(users, assignee),
                           Assignment, None), id)
  }

  /**
   * `handleStatusUpdate` as a decision: `selected` is the technician chosen in the form ("" for none),
   * `t` the component's copy of the ticket.
   */
  function PlanStatusUpdate(actor: Option<User>, users: seq<User>, t: Ticket, newStatus: Status,
                            newPriority: Priority, selected: string, now: Time,
                            statusEntryId: string, assignEntryId: string): StatusUpdatePlan
  {
    if !CanEdit(actor, t) then Rejected
    else if newStatus != Open && selected == "" then Rejected
    else
      var patch := NoTicketChanges.(
        status := Some(newStatus),
        priority := Some(newPriority),
        assignedTo := Some(if selected == "" then None else Some(selected)),
        resolvedAt := Some(if newStatus == Resolved then Some(now) else t.resolvedAt));
      var statusLog := if newStatus != t.status then [StatusEntry(actor.value, t, newStatus, statusEntryId)] else [];
      var assignLog :=
        if t.assignedTo != Some(selected) && selected != ""
        then [AssignmentEntry(actor.value, users, t, selected, assignEntryId)] else [];
      Accepted(patch, statusLog + assignLog)
  }

  /**
   * The guard: an update is refused exactly when the actor may not edit the ticket, or when a status
   * other than open is chosen with no technician selected.
   */
  lemma StatusUpdateGuard(actor: Option<User>, users: seq<User>, t: Ticket, newStatus: Status,
                          newPriority: Priority, selected: string, now: Time, sid: string, aid: string)
    ensures PlanStatusUpdate(actor, users, t, newStatus, newPriority, selected, now, sid, aid).Rejected?
      <==> !CanEdit(actor, t) || (newStatus != Open && selected == "")
  {
  }

  /**
   * On an accepted update the stored ticket takes the chosen status and priority; an empty selection
   * stores no assignee; `resolvedAt` is stamped when the new status is resolved and otherwise kept,
   * so reopening never clears it; and nothing else but the modification time changes.
   */
  lemma StatusUpdateFields(actor: Option<User>, users: seq<User>, t: Ticket, newStatus: Status,
                           newPriority: Priority, selected: string, now: Time, sid: string, aid: string,
                           stored: Ticket)
    requires PlanStatusUpdate(actor, users, t, newStatus, newPriority, selected, now, sid, aid).Accepted?
    ensures
      var u := UpdatedTicket(stored, PlanStatusUpdate(actor, users, t, newStatus, newPriority, selected, now, sid, aid).patch, now);
      && u.status == newStatus && u.priority == newPriority
      && u.assignedTo == (if selected == "" then None else Some(selected))
      && u.resolvedAt == (if newStatus == Resolved then Some(now) else t.resolvedAt)
      && u == stored.(status := newStatus, priority := newPriority, assignedTo := u.assignedTo,
                      resolvedAt := u.resolvedAt, updatedAt := now)
  {
  }

  /**
   * The logged entries: one status change exactly when the status differs from the ticket's, one
   * assignment exactly when a different, non-empty technician is chosen (so unassigning logs nothing),
   * the status change first.
   */
  lemma StatusUpdateEntries(actor: Option<User>, users: seq<User>, t: Ticket, newStatus: Status,
                            newPriority: Priority, selected: string, now: Time, sid: string, aid: string)
    requires PlanStatusUpdate(actor, users, t, newStatus, newPriority, selected, now, sid, aid).Accepted?
    ensures
      var es := PlanStatusUpdate(actor, users, t, newStatus, newPriority, selected, now, sid, aid).entries;
      var statusChanged := newStatus != t.status;
      var logsAssignment := t.assignedTo != Some(selected) && selected != "";
      && |Filter(es, (e: TimelineEntry) => e.entryType == StatusChange)| == (if statusChanged then 1 else 0)
      && |Filter(es, (e: TimelineEntry) => e.entryType == Assignment)| == (if logsAssignment then 1 else 0)
      && |es| == (if statusChanged then 1 else 0) + (if logsAssignment then 1 else 0)
      && (statusChanged ==> es[0].entryType == StatusChange && es[0].id == sid)
      && (logsAssignment ==> es[|es| - 1].entryType == Assignment && es[|es| - 1].id == aid)
      && (forall k :: 0 <= k < |es| ==> es[k].ticketId == t.id && es[k].userId == actor.value.id)
  {
    var es := PlanStatusUpdate(actor, users, t, newStatus, newPriority, selected, now, sid, aid).entries;
    if |es| == 2 {
      assert es[1..][1..] == [];
    } else if |es| == 1 {
      assert es[1..] == [];
    }
  }

  /**
   * The store after `handleStatusUpdate`: nothing changes when refused or when the store has no
   * ticket with that id; otherwise the first matching ticket is updated and the entries are
   * appended to its timeline after the update, in order, and no other ticket changes.
   */
  method HandleStatusUpdate(store: Store, actor: Option<User>, users: seq<User>, t: Ticket,
                            newStatus: Status, newPriority: Priority, selected: string, now: Time,
                            statusEntryId: string, assignEntryId: string) returns (accepted: bool)
    modifies store
    ensures var plan := PlanStatusUpdate(actor, users, t, newStatus, newPriority, selected, now, statusEntryId, assignEntryId);
      && (accepted <==> plan.Accepted?)
      && (plan.Rejected? ==> store.tickets == old(store.tickets))
      && (plan.Accepted? ==>
            store.tickets == AppendEntries(TicketsAfterUpdate(old(store.tickets), t.id, plan.patch, now), t.id, plan.entries))
    ensures store.users == old(store.users) && store.categories == old(store.categories)
    ensures store.slaConfig == old(store.slaConfig)
  {
    var plan := PlanStatusUpdate(actor, users, t, newStatus, newPriority, selected, now, statusEntryId, assignEntryId);
    if plan.Rejected? {
      return false;
    }
    accepted := true;
    var user := actor.value;
    var statusChanged := newStatus != t.status;
    var assignmentChanged := t.assignedTo != Some(selected);
    var _ := store.UpdateTicket(t.id, plan.patch, now);
    ghost var updated := store.tickets;
    ghost var logged: seq<TimelineEntry> := [];
    if statusChanged {
      var e := StatusEntry(user, t, newStatus, statusEntryId);
      var r := store.AddTimelineEntry(t.id, TimelineDraftOf(e), statusEntryId);
      if r.Failure? {
        AppendEntriesEffect(updated, t.id, plan.entries);
        return;
      }
      logged := [e];
    }
    if assignmentChanged && selected != "" {
      var e := AssignmentEntry(user, users, t, selected, assignEntryId);
      var r := store.AddTimelineEntry(t.id, TimelineDraftOf(e), assignEntryId);
      AppendOneMore(updated, t.id, logged, e);
      if r.Failure? {
        AppendKeepsIndex(updated, t.id, logged);
        AppendEntriesEffect(updated, t.id, logged);
        AppendEntriesEffect(updated, t.id, plan.entries);
      }
      assert logged + [e] == plan.entries;
    } else {
      assert logged == plan.entries;
    }
  }

  lemma {:induction false} AppendOneMore(ts: seq<Ticket>, id: string, es: seq<TimelineEntry>, e: TimelineEntry)
    ensures AppendEntries(ts, id, es + [e]) == TicketsAfterEntry(AppendEntries(ts, id, es), id, e)
    decreases |es|
  {
    if es == [] {
      assert es + [e] == [e];
    } else {
      assert (es + [e])[1..] == es[1..] + [e];
      AppendOneMore(TicketsAfterEntry(ts, id, es[0]), id, es[1..], e);
    }
  }

  lemma {:induction false} AppendKeepsIndex(ts: seq<Ticket>, id: string, es: seq<TimelineEntry>)
    ensures TicketIndex(AppendEntries(ts, id, es), id) == TicketIndex(ts, id)
    decreases |es|
  {
    if es != [] {
      EntryKeepsIndex(ts, id, es[0], id);
      AppendKeepsIndex(TicketsAfterEntry(ts, id, es[0]), id, es[1..]);
    }
  }

  /**
   * The combined effect on a ticket the store knows: it carries the update's fields and exactly
   * the planned entries after its earlier timeline; every other ticket is unchanged.
   */
  lemma StatusUpdateEffect(ts: seq<Ticket>, actor: Option<User>, users: seq<User>, t: Ticket,
                           newStatus: Status, newPriority: Priority, selected: string, now: Time,
                           sid: string, aid: string)
    requires TicketIndex(ts, t.id).Some?
    requires PlanStatusUpdate(actor, users, t, newStatus, newPriority, selected, now, sid, aid).Accepted?
    ensures
      var plan := PlanStatusUpdate(actor, users, t, newStatus, newPriority, selected, now, sid, aid);
      var i := TicketIndex(ts, t.id).value;
      var r := AppendEntries(TicketsAfterUpdate(ts, t.id, plan.patch, now), t.id, plan.entries);
      && |r| == |ts|
      && (forall j :: 0 <= j < |ts| && j != i ==> r[j] == ts[j])
      && r[i] == UpdatedTicket(ts[i], plan.patch, now).(timeline := ts[i].timeline + plan.entries)
  {
    var plan := PlanStatusUpdate(actor, users, t, newStatus, newPriority, selected, now, sid, aid);
    var i := TicketIndex(ts, t.id).value;
    var updated := TicketsAfterUpdate(ts, t.id, plan.patch, now);
    SameIdsSameIndex(updated, ts, t.id);
    AppendEntriesEffect(updated, t.id, plan.entries);
  }

  // ---- Comments ----

  /** The characters JavaScript's `String.prototype.trim` removes. */
  predicate IsJsWhitespace(c: char)
  {
    c == ' ' || c == '\t' || c == '\n' || c == '\r' || c == '\U{000B}' || c == '\U{000C}'
    || c == '\U{00A0}' || c == '\U{1680}' || ('\U{2000}' <= c <= '\U{200A}')
    || c == '\U{2028}' || c == '\U{2029}' || c == '\U{202F}' || c == '\U{205F}'
    || c == '\U{3000}' || c == '\U{FEFF}'
  }

  /** `!s.trim()`: nothing but whitespace is left, including the empty string. */
  predicate IsBlank(s: string)
  {
    forall i :: 0 <= i < |s| ==> IsJsWhitespace(s[i])
  }

  /** The public comment entry; the message is the text as typed, not trimmed. */
  function CommentEntry(actor: User, t: Ticket, text: string, id: string): TimelineEntry
  {
    NewEntry(TimelineDraft(t.id, actor.id, actor.name, text, Comment, None), id)
  }

  /** The internal comment; it is signed as the technician whatever the actor's role. */
  function InternalNote(actor: User, t: Ticket, text: string, id: string): InternalComment
  {
    NewComment(CommentDraft(t.id, actor.id, actor.name, text, None), id)
  }

  /**
   * `handleAddComment`: blank text or no logged-in user adds nothing; otherwise exactly one comment
   * entry is appended to the ticket's timeline, by any logged-in role. `posted` is false when
   * the store has no such ticket.
   */
  method HandleAddComment(store: Store, actor: Option<User>, t: Ticket, text: string, entryId: string)
    returns (posted: bool)
    modifies store
    ensures IsBlank(text) || actor.None? ==> !posted && store.tickets == old(store.tickets)
    ensures !IsBlank(text) && actor.Some? ==>
      && store.tickets == TicketsAfterEntry(old(store.tickets), t.id, CommentEntry(actor.value, t, text, entryId))
      && (posted <==> TicketIndex(old(store.tickets), t.id).Some?)
    ensures store.users == old(store.users) && store.categories == old(store.categories)
    ensures store.slaConfig == old(store.slaConfig)
  {
    if IsBlank(text) || actor.None? {
      return false;
    }
    var e := CommentEntry(actor.value, t, text, entryId);
    var r := store.AddTimelineEntry(t.id, TimelineDraftOf(e), entryId);
    posted := r.Success?;
  }

  /**
   * `handleAddInternalComment`: refused for blank text, no logged-in user, or an end user; otherwise
   * exactly one internal comment is appended and no timeline changes.
   */
  method HandleAddInternalComment(store: Store, actor: Option<User>, t: Ticket, text: string, commentId: string)
    returns (posted: bool)
    modifies store
    ensures IsBlank(text) || actor.None? || actor.value.role == EndUser ==>
      !posted && store.tickets == old(store.tickets)
    ensures !IsBlank(text) && actor.Some? && actor.value.role != EndUser ==>
      && store.tickets == TicketsAfterComment(old(store.tickets), t.id, InternalNote(actor.value, t, text, commentId))
      && (posted <==> TicketIndex(old(store.tickets), t.id).Some?)
    ensures store.users == old(store.users) && store.categories == old(store.categories)
    ensures store.slaConfig == old(store.slaConfig)
  {
    if IsBlank(text) || actor.None? || actor.value.role == EndUser {
      return false;
    }
    var c := InternalNote(actor.value, t, text, commentId);
    var r := store.AddInternalComment(t.id, CommentDraftOf(c), commentId);
    posted := r.Success?;
  }

  // ---- Work timer ----

  /** What starting the work timer writes: status in progress, priority and assignee restated. */
  function StartWorkPatch(t: Ticket): TicketPatch
  {
    NoTicketChanges.(status := Some(InProgress), priority := Some(t.priority), assignedTo := Some(t.assignedTo))
  }

  /** The entry logged when starting the timer moves the ticket to in progress. */
  function StartWorkEntry(actor: User, t: Ticket, id: string): TimelineEntry
  {
    NewEntry(TimelineDraft(t.id, actor.id, actor.name, "Status alterado para Em Andamento", StatusChange, None), id)
  }

  /** Whether pressing the timer button writes to the store: a start, allowed, on a ticket not yet in progress. */
  predicate StartMovesToInProgress(actor: Option<User>, t: Ticket, running: bool)
  {
    CanAssign(actor) && Assigned(t) && !running && t.status != InProgress
  }

  /**
   * `handleTimerToggle`: refused (timer unchanged) for a non-assigner or an unassigned ticket; otherwise
   * the timer flips, and a start on a ticket not already in progress sets it in progress and logs one
   * status change after the update.
   */
  method HandleTimerToggle(store: Store, actor: Option<User>, t: Ticket, running: bool, now: Time, entryId: string)
    returns (runningAfter: bool)
    modifies store
    ensures !CanAssign(actor) || !Assigned(t) ==> runningAfter == running
    ensures CanAssign(actor) && Assigned(t) ==> runningAfter == !running
    ensures !StartMovesToInProgress(actor, t, running) ==> store.tickets == old(store.tickets)
    ensures StartMovesToInProgress(actor, t, running) ==>
      store.tickets == AppendEntries(TicketsAfterUpdate(old(store.tickets), t.id, StartWorkPatch(t), now),
                                     t.id, [StartWorkEntry(actor.value, t, entryId)])
    ensures store.users == old(store.users) && store.categories == old(store.categories)
    ensures store.slaConfig == old(store.slaConfig)
  {
    if !CanAssign(actor) || !Assigned(t) {
      return running;
    }
    var wasRunning := running;
    runningAfter := !running;
    if !wasRunning && t.status != InProgress {
      var _ := store.UpdateTicket(t.id, StartWorkPatch(t), now);
      ghost var updated := store.tickets;
      var e := StartWorkEntry(actor.value, t, entryId);
      var r := store.AddTimelineEntry(t.id, TimelineDraftOf(e), entryId);
      AppendEntriesEffect(updated, t.id, [e]);
    }
  }

  /**
   * Starting work on a ticket the store knows leaves it in progress with its priority and assignee,
   * with exactly one more timeline entry, a status change.
   */
  lemma StartWorkEffect(ts: seq<Ticket>, actor: Option<User>, t: Ticket, now: Time, entryId: string)
    requires TicketIndex(ts, t.id).Some?
    requires StartMovesToInProgress(actor, t, false)
    ensures
      var i := TicketIndex(ts, t.id).value;
      var r := AppendEntries(TicketsAfterUpdate(ts, t.id, StartWorkPatch(t), now), t.id, [StartWorkEntry(actor.value, t, entryId)]);
      && r[i].status == InProgress && r[i].priority == t.priority && r[i].assignedTo == t.assignedTo
      && r[i].timeline == ts[i].timeline + [StartWorkEntry(actor.value, t, entryId)]
      && r[i].resolvedAt == ts[i].resolvedAt
      && (forall j :: 0 <= j < |ts| && j != i ==> r[j] == ts[j])
  {
    var i := TicketIndex(ts, t.id).value;
    var updated := TicketsAfterUpdate(ts, t.id, StartWorkPatch(t), now);
    SameIdsSameIndex(updated, ts, t.id);
    AppendEntriesEffect(updated, t.id, [StartWorkEntry(actor.value, t, entryId)]);
  }

  // ---- Timer display ----

  /** The timer split into hours, minutes below 60 and seconds below 60. */
  function SplitTimer(seconds: nat): (r: (nat, nat, nat))
    ensures r.0 * 3600 + r.1 * 60 + r.2 == seconds
    ensures r.1 < 60 && r.2 < 60
  {
    (seconds / 3600, (seconds % 3600) / 60, seconds % 60)
  }

  predicate IsDigit(c: char)
  {
    '0' <= c <= '9'
  }

  predicate AllDigits(s: string)
  {
    forall i :: 0 <= i < |s| ==> IsDigit(s[i])
  }

  /** `n.toString()` for a natural number. */
  function Decimal(n: nat): (s: string)
    ensures |s| >= 1 && AllDigits(s)
    ensures n < 10 <==> |s| == 1
  {
    var d := ('0' as int + n % 10) as char;
    if n < 10 then [d] else Decimal(n / 10) + [d]
  }

  /** The number a string of decimal digits denotes. */
  function DecimalValue(s: string): nat
    requires AllDigits(s)
  {
    if s == [] then 0 else DecimalValue(s[..|s| - 1]) * 10 + (s[|s| - 1] as int - '0' as int)
  }

  lemma {:induction false} DecimalRoundTrip(n: nat)
    ensures DecimalValue(Decimal(n)) == n
  {
    var s := Decimal(n);
    if n >= 10 {
      assert s[..|s| - 1] == Decimal(n / 10);
      DecimalRoundTrip(n / 10);
    }
  }

  /** A leading zero does not change the number denoted. */
  lemma {:induction false} LeadingZero(s: string)
    requires AllDigits(s)
    ensures DecimalValue("0" + s) == DecimalValue(s)
    decreases |s|
  {
    if s != [] {
      var z := "0" + s;
      assert z[..|z| - 1] == "0" + s[..|s| - 1];
      LeadingZero(s[..|s| - 1]);
    }
  }

  /** `padStart(2, '0')`. */
  function PadStart2(s: string): (r: string)
    ensures |r| == if |s| >= 2 then |s| else 2
  {
    if |s| >= 2 then s else if |s| == 1 then "0" + s else "00"
  }

  /** Where the two separators sit: `H..H:MM:SS` with all other characters digits. */
  predicate TimerShaped(r: string)
  {
    |r| >= 8 && r[|r| - 3] == ':' && r[|r| - 6] == ':'
    && AllDigits(r[..|r| - 6]) && AllDigits(r[|r| - 5..|r| - 3]) && AllDigits(r[|r| - 2..])
  }

  /**
   * `formatTimer`: hours, minutes and seconds, each padded to at least two digits; the fields shown
   * are the whole hours, the minutes below 60 and the seconds below 60 of the elapsed time.
   */
  function FormatTimer(seconds: nat): (r: string)
    ensures TimerShaped(r)
    ensures seconds < 100 * 3600 ==> |r| == 8
    ensures DecimalValue(r[..|r| - 6]) == SplitTimer(seconds).0
    ensures DecimalValue(r[|r| - 5..|r| - 3]) == SplitTimer(seconds).1 < 60
    ensures DecimalValue(r[|r| - 2..]) == SplitTimer(seconds).2 < 60
  {
    var (h, m, s) := SplitTimer(seconds);
    var ph, pm, ps := PadStart2(Decimal(h)), PadStart2(Decimal(m)), PadStart2(Decimal(s));
    TimerFields(ph, pm, ps);
    PaddedValue(h);
    PaddedValue(m);
    PaddedValue(s);
    ph + ":" + pm + ":" + ps
  }

  /** Reads a displayed timer back as seconds. */
  function ParseTimer(r: string): nat
    requires TimerShaped(r)
  {
    DecimalValue(r[..|r| - 6]) * 3600 + DecimalValue(r[|r| - 5..|r| - 3]) * 60 + DecimalValue(r[|r| - 2..])
  }

  /** A padded field still denotes its number. */
  lemma PaddedValue(n: nat)
    ensures AllDigits(PadStart2(Decimal(n))) && DecimalValue(PadStart2(Decimal(n))) == n
  {
    DecimalRoundTrip(n);
    if n < 10 {
      LeadingZero(Decimal(n));
    }
  }

  /** The three fields of a joined timer sit where `ParseTimer` reads them. */
  lemma TimerFields(ph: string, pm: string, ps: string)
    requires |pm| == 2 && |ps| == 2
    ensures var r := ph + ":" + pm + ":" + ps;
      && r[..|r| - 6] == ph && r[|r| - 5..|r| - 3] == pm && r[|r| - 2..] == ps
  {
  }

  /** The display loses nothing: reading it back gives the seconds it shows, since the shown fields recombine. */
  lemma FormatTimerRoundTrip(seconds: nat)
    ensures ParseTimer(FormatTimer(seconds)) == seconds
  {
  }
}
