/**
 * The ticket filters the dashboard, the SLA panel and the reports all count with
 * (`tickets.filter(t => t.status === s).length` and the like), and the partition facts
 * that make their buckets add up.
 */
module TicketCounts {
  import opened Wrappers
  import opened Seqs
  import opened Types

  /** `t.status === s`. */
  function WithStatus(ts: seq<Ticket>, s: Status): (r: seq<Ticket>)
    ensures forall i :: 0 <= i < |r| ==> r[i].status == s && r[i] in ts
    ensures forall i :: 0 <= i < |ts| && ts[i].status == s ==> ts[i] in r
  {
    Filter(ts, (t: Ticket) => t.status == s)
  }

  /** `t.priority === p`. */
  function WithPriority(ts: seq<Ticket>, p: Priority): (r: seq<Ticket>)
    ensures forall i :: 0 <= i < |r| ==> r[i].priority == p && r[i] in ts
    ensures forall i :: 0 <= i < |ts| && ts[i].priority == p ==> ts[i] in r
  {
    Filter(ts, (t: Ticket) => t.priority == p)
  }

  /** `t.category === id`. */
  function InCategory(ts: seq<Ticket>, id: string): (r: seq<Ticket>)
    ensures forall i :: 0 <= i < |r| ==> r[i].category == id && r[i] in ts
    ensures forall i :: 0 <= i < |ts| && ts[i].category == id ==> ts[i] in r
  {
    Filter(ts, (t: Ticket) => t.category == id)
  }

  /** `t.assignedTo === id`. */
  function AssignedTo(ts: seq<Ticket>, id: string): (r: seq<Ticket>)
    ensures forall i :: 0 <= i < |r| ==> r[i].assignedTo == Some(id) && r[i] in ts
    ensures forall i :: 0 <= i < |ts| && ts[i].assignedTo == Some(id) ==> ts[i] in r
  {
    Filter(ts, (t: Ticket) => t.assignedTo == Some(id))
  }

  /** `t.resolvedAt` is set. */
  function WithResolvedAt(ts: seq<Ticket>): (r: seq<Ticket>)
    ensures forall i :: 0 <= i < |r| ==> r[i].resolvedAt.Some? && r[i] in ts
    ensures forall i :: 0 <= i < |ts| && ts[i].resolvedAt.Some? ==> ts[i] in r
  {
    Filter(ts, (t: Ticket) => t.resolvedAt.Some?)
  }

  /** The users with role technician, in order. */
  function Technicians(users: seq<User>): (r: seq<User>)
    ensures forall i :: 0 <= i < |r| ==> r[i].role == Technician && r[i] in users
    ensures forall i :: 0 <= i < |users| && users[i].role == Technician ==> users[i] in r
  {
    Filter(users, (u: User) => u.role == Technician)
  }

  /** Every ticket has exactly one of the five statuses, so the five status counts add up to the total. */
  lemma {:induction false} StatusPartition(ts: seq<Ticket>)
    ensures |WithStatus(ts, Open)| + |WithStatus(ts, InProgress)| + |WithStatus(ts, WaitingUser)|
          + |WithStatus(ts, Resolved)| + |WithStatus(ts, Closed)| == |ts|
  {
    if ts != [] {
      StatusPartition(ts[1..]);
    }
  }

  /** Every ticket has exactly one of the four priorities, so the four priority counts add up to the total. */
  lemma {:induction false} PriorityPartition(ts: seq<Ticket>)
    ensures |WithPriority(ts, Low)| + |WithPriority(ts, Medium)| + |WithPriority(ts, High)|
          + |WithPriority(ts, Critical)| == |ts|
  {
    if ts != [] {
      PriorityPartition(ts[1..]);
    }
  }
}
