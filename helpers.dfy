/**
 * SLA and time helpers, and the code-to-label and code-to-colour lookups.
 * The wall clock is a parameter `now`; timestamps are integer milliseconds.
 */
module Helpers {
  import opened Wrappers
  import opened Types

  /** 1000 * 60 * 60 milliseconds. */
  const MsPerHour: int := 3600000

  /** The class string every lookup falls back to for an unknown code. */
  const GrayClass: string := "bg-gray-100 text-gray-800"

  /** Tailwind classes for a priority code; anything that is not a priority code gets the gray class. */
  function PriorityColor(code: string): (r: string)
    ensures ParsePriority(code).None? ==> r == GrayClass
    ensures ParsePriority(code).Some? ==> r != GrayClass
  {
    if code == "low" then "bg-green-100 text-green-800"
    else if code == "medium" then "bg-yellow-100 text-yellow-800"
    else if code == "high" then "bg-orange-100 text-orange-800"
    else if code == "critical" then "bg-red-100 text-red-800"
    else GrayClass
  }

  /** Tailwind classes for a status code; `closed` and every unknown code share the gray class. */
  function StatusColor(code: string): (r: string)
    ensures r == GrayClass <==> ParseStatus(code).None? || code == "closed"
  {
    if code == "open" then "bg-blue-100 text-blue-800"
    else if code == "in_progress" then "bg-purple-100 text-purple-800"
    else if code == "waiting_user" then "bg-yellow-100 text-yellow-800"
    else if code == "resolved" then "bg-green-100 text-green-800"
    else if code == "closed" then GrayClass
    else GrayClass
  }

  /** The Portuguese label of a priority code; an unknown code is returned unchanged. */
  function PriorityLabel(code: string): (r: string)
    ensures ParsePriority(code).None? ==> r == code
    ensures ParsePriority(code).Some? ==> r != code
  {
    if code == "low" then "Baixa"
    else if code == "medium" then "Média"
    else if code == "high" then "Alta"
    else if code == "critical" then "Crítica"
    else code
  }

  /** The Portuguese label of a status code; an unknown code is returned unchanged. */
  function StatusLabel(code: string): (r: string)
    ensures ParseStatus(code).None? ==> r == code
    ensures ParseStatus(code).Some? ==> r != code
  {
    if code == "open" then "Aberto"
    else if code == "in_progress" then "Em Andamento"
    else if code == "waiting_user" then "Aguardando Usuário"
    else if code == "resolved" then "Resolvido"
    else if code == "closed" then "Fechado"
    else code
  }

  /** Distinct priorities get distinct labels, so the label identifies the priority. */
  lemma PriorityLabelInjective(p: Priority, q: Priority)
    ensures PriorityLabel(PriorityCode(p)) == PriorityLabel(PriorityCode(q)) <==> p == q
  {
  }

  /** Distinct statuses get distinct labels, so the label identifies the status. */
  lemma StatusLabelInjective(s: Status, t: Status)
    ensures StatusLabel(StatusCode(s)) == StatusLabel(StatusCode(t)) <==> s == t
  {
  }

  /** The deadline `hours` whole hours after `createdAt` (clock arithmetic, not business hours). */
  function SlaDeadline(createdAt: Time, hours: int): (r: Time)
    ensures r - createdAt == hours * MsPerHour
  {
    createdAt + hours * MsPerHour
  }

  /** At most two hours, and more than nothing, are left before the deadline. */
  predicate IsNearDeadline(deadline: Time, now: Time)
  {
    var left := deadline - now;
    0 < left && left <= 2 * MsPerHour
  }

  /** The deadline has passed; exactly at the deadline a ticket is not yet overdue. */
  predicate IsOverdue(deadline: Time, now: Time)
  {
    now > deadline
  }

  datatype SlaState = Overdue | NearDeadline | OnTime

  /** The badge a ticket shows: overdue first, then near the deadline, otherwise on time. */
  function Classify(deadline: Time, now: Time): (r: SlaState)
    ensures r == Overdue <==> now > deadline
    ensures r == NearDeadline <==> 0 < deadline - now <= 2 * MsPerHour
    ensures r == OnTime <==> deadline - now > 2 * MsPerHour || deadline == now
  {
    if IsOverdue(deadline, now) then Overdue
    else if IsNearDeadline(deadline, now) then NearDeadline
    else OnTime
  }

  /** Overdue and near-deadline never hold together at one instant. */
  lemma OverdueExcludesNear(deadline: Time, now: Time)
    ensures !(IsOverdue(deadline, now) && IsNearDeadline(deadline, now))
  {
  }

  /**
   * Overdue and near-deadline stay exclusive when the near-deadline test reads the clock later
   * than the overdue test, as two separate `new Date()` calls do.
   */
  lemma OverdueExcludesLaterNear(deadline: Time, first: Time, later: Time)
    requires first <= later
    ensures IsOverdue(deadline, first) ==> !IsNearDeadline(deadline, later)
  {
  }

  /** `Math.round`: the nearest integer, halves rounded up. */
  function RoundHalfUp(x: real): (r: int)
    ensures r as real - 0.5 <= x < r as real + 0.5
  {
    (x + 0.5).Floor
  }

  /** Hours from creation to resolution rounded to the nearest hour, or 0 while unresolved. */
  function ResolutionTime(createdAt: Time, resolvedAt: Option<Time>): (r: int)
    ensures resolvedAt.None? ==> r == 0
    ensures resolvedAt.Some? ==>
      (2 * r - 1) * MsPerHour <= 2 * (resolvedAt.value - createdAt) < (2 * r + 1) * MsPerHour
  {
    match resolvedAt
    case None => 0
    case Some(resolved) => RoundHalfUp((resolved - createdAt) as real / MsPerHour as real)
  }

  /**
   * A 24-hour ticket created at 2024-01-01T00:00:00Z is due at
   * 2024-01-02T00:00:00Z; at 23:00 on the first day the ticket is near its deadline, at 01:00 on the
   * second day it is overdue, and exactly at the deadline it is not overdue.
   */
  lemma DeadlineExample()
    ensures SlaDeadline(1704067200000, 24) == 1704153600000
    ensures Classify(1704153600000, 1704150000000) == NearDeadline
    ensures Classify(1704153600000, 1704157200000) == Overdue
    ensures Classify(1704153600000, 1704153600000) == OnTime
  {
  }
}
