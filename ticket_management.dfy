/** The tickets page: which tickets each role is listed, and which ticket a selection opens. */
module TicketManagement {
  import opened Wrappers
  import opened Seqs
  import opened Types

  /** Whether the viewer is listed the ticket: own tickets for an end user, own or unassigned for a technician. */
  predicate Visible(actor: Option<User>, t: Ticket)
  {
    if actor.Some? && actor.value.role == EndUser then t.userId == actor.value.id
    else if actor.Some? && actor.value.role == Technician then t.assignedTo == Some(actor.value.id) || !Assigned(t)
    else true
  }

  function VisibleTest(actor: Option<User>): Ticket -> bool
  {
    (t: Ticket) => Visible(actor, t)
  }

  /** The role-filtered list handed to the ticket list. */
  function VisibleTickets(actor: Option<User>, ts: seq<Ticket>): (r: seq<Ticket>)
    ensures forall i :: 0 <= i < |r| ==> r[i] in ts && Visible(actor, r[i])
    ensures forall i :: 0 <= i < |ts| && Visible(actor, ts[i]) ==> ts[i] in r
    ensures !(actor.Some? && actor.value.role in {EndUser, Technician}) ==> r == ts
  {
    if actor.Some? && actor.value.role in {EndUser, Technician} then Filter(ts, VisibleTest(actor))
    else
      FilterAll(ts, VisibleTest(actor));
      ts
  }

  /** An end user is listed exactly their own tickets; a technician, those assigned to them or to nobody. */
  lemma VisibilityByRole(actor: User, t: Ticket)
    ensures actor.role == EndUser ==> (Visible(Some(actor), t) <==> t.userId == actor.id)
    ensures actor.role == Technician ==>
      (Visible(Some(actor), t) <==> t.assignedTo == Some(actor.id) || t.assignedTo == None || t.assignedTo == Some(""))
    ensures actor.role == Admin ==> Visible(Some(actor), t)
  {
  }

  /** Filtering keeps the original order: the list of a concatenation is the concatenation of the lists. */
  lemma VisibleKeepsOrder(actor: Option<User>, a: seq<Ticket>, b: seq<Ticket>)
    ensures VisibleTickets(actor, a + b) == VisibleTickets(actor, a) + VisibleTickets(actor, b)
  {
    FilterConcat(a, b, VisibleTest(actor));
  }

  datatype View = Detail(ticket: Ticket) | List

  /**
   * A selected id opens that ticket, looked up in the FULL list rather than the role-filtered
   * one; no selection (or the empty id) and an unknown id both show the list.
   */
  function SelectedView(ts: seq<Ticket>, selected: Option<string>): (v: View)
    ensures v.Detail? <==> selected.Some? && selected.value != "" && FindTicket(ts, selected.value).Some?
    ensures v.Detail? ==> v.ticket.id == selected.value && v.ticket in ts
  {
    if selected.Some? && selected.value != "" then
      match FindTicket(ts, selected.value)
      case Some(t) => Detail(t)
      case None => List
    else List
  }
}
