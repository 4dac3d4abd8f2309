/** The dashboard's SLA panel: active tickets split into overdue, near the deadline, and on time. */
module SlaStatus {
  import opened Seqs
  import opened Types
  import opened Helpers

  predicate IsActive(t: Ticket)
  {
    t.status != Closed && t.status != Resolved
  }

  /** Tickets neither closed nor resolved. */
  function ActiveTickets(ts: seq<Ticket>): (r: seq<Ticket>)
    ensures forall i :: 0 <= i < |r| ==> r[i].status != Closed && r[i].status != Resolved && r[i] in ts
    ensures forall i :: 0 <= i < |ts| && ts[i].status != Closed && ts[i].status != Resolved ==> ts[i] in r
  {
    Filter(ts, IsActive)
  }

  /** The tickets whose deadline is in the given SLA state at `now`. */
  function InState(ts: seq<Ticket>, state: SlaState, now: Time): (r: seq<Ticket>)
    ensures forall i :: 0 <= i < |r| ==> Classify(r[i].slaDeadline, now) == state && r[i] in ts
    ensures forall i :: 0 <= i < |ts| && Classify(ts[i].slaDeadline, now) == state ==> ts[i] in r
  {
    Filter(ts, (t: Ticket) => Classify(t.slaDeadline, now) == state)
  }

  /** Each deadline is in exactly one state, so the three counts add up to the number of tickets. */
  lemma {:induction false} StatePartition(ts: seq<Ticket>, now: Time)
    ensures |InState(ts, Overdue, now)| + |InState(ts, NearDeadline, now)| + |InState(ts, OnTime, now)| == |ts|
  {
    if ts != [] {
      StatePartition(ts[1..], now);
    }
  }

  datatype SlaBucket = SlaBucket(labelText: string, count: int)

  /**
   * The three cards. Overdue and near-deadline are counted; on-time is what remains, which
   * is exactly the active tickets more than two hours from their deadline or at it, and so never negative.
   */
  function SlaBuckets(ts: seq<Ticket>, now: Time): (r: seq<SlaBucket>)
    ensures |r| == 3
    ensures r[0].labelText == "Vencidos" && r[1].labelText == "Próximo do Vencimento" && r[2].labelText == "No Prazo"
    ensures r[0].count == |Filter(ActiveTickets(ts), (t: Ticket) => IsOverdue(t.slaDeadline, now))|
    ensures r[1].count == |Filter(ActiveTickets(ts), (t: Ticket) => IsNearDeadline(t.slaDeadline, now))|
    ensures r[2].count == |InState(ActiveTickets(ts), OnTime, now)| && r[2].count >= 0
    ensures r[0].count + r[1].count + r[2].count == |ActiveTickets(ts)|
  {
    var active := ActiveTickets(ts);
    var overdue := |Filter(active, (t: Ticket) => IsOverdue(t.slaDeadline, now))|;
    var near := |Filter(active, (t: Ticket) => IsNearDeadline(t.slaDeadline, now))|;
    SameStateCounts(active, now);
    StatePartition(active, now);
    [SlaBucket("Vencidos", overdue), SlaBucket("Próximo do Vencimento", near),
     SlaBucket("No Prazo", |active| - overdue - near)]
  }

  /** Counting by the two predicates is counting by the classification. */
  lemma {:induction false} SameStateCounts(ts: seq<Ticket>, now: Time)
    ensures |Filter(ts, (t: Ticket) => IsOverdue(t.slaDeadline, now))| == |InState(ts, Overdue, now)|
    ensures |Filter(ts, (t: Ticket) => IsNearDeadline(t.slaDeadline, now))| == |InState(ts, NearDeadline, now)|
  {
    if ts != [] {
      SameStateCounts(ts[1..], now);
    }
  }

  /** With no active ticket all three cards show 0. */
  lemma NoActiveNoBuckets(ts: seq<Ticket>, now: Time)
    requires forall i :: 0 <= i < |ts| ==> ts[i].status == Closed || ts[i].status == Resolved
    ensures SlaBuckets(ts, now)[0].count == 0 && SlaBuckets(ts, now)[1].count == 0
    ensures SlaBuckets(ts, now)[2].count == 0
  {
    FilterNone(ts, IsActive);
  }
}
