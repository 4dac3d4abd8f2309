/**
 * The dashboard's statistics: counts by status, the average resolution time, tallies by
 * category, priority and technician, and which tickets each role's panels show.
 */
module Dashboard {
  import opened Wrappers
  import opened Seqs
  import opened Types
  import opened Helpers
  import opened TicketCounts
  import opened SlaStatus
  import opened RecentTickets

  datatype Stats = Stats(
    totalTickets: nat,
    openTickets: nat,
    inProgressTickets: nat,
    resolvedTickets: nat,
    closedTickets: nat,
    averageResolutionTime: int,
    ticketsByCategory: map<string, nat>,
    ticketsByPriority: map<string, nat>,
    ticketsByTechnician: map<string, nat>)

  // ---- Average resolution time ----

  /** Milliseconds from creation to resolution (0 for a ticket without `resolvedAt`). */
  function Elapsed(t: Ticket): int
  {
    if t.resolvedAt.Some? then t.resolvedAt.value - t.createdAt else 0
  }

  /** The `reduce` adding up elapsed milliseconds. */
  function TotalElapsed(ts: seq<Ticket>): int
  {
    if ts == [] then 0 else Elapsed(ts[0]) + TotalElapsed(ts[1..])
  }

  /** The mean elapsed time in hours over the tickets that have `resolvedAt`, or 0 when there are none. */
  function MeanResolutionHours(ts: seq<Ticket>): real
  {
    var resolved := WithResolvedAt(ts);
    if |resolved| == 0 then 0.0
    else TotalElapsed(resolved) as real / |resolved| as real / MsPerHour as real
  }

  /** `Math.round` of the mean: the nearest whole hour to it, and 0 with no resolved ticket. */
  function AverageResolutionHours(ts: seq<Ticket>): (r: int)
    ensures |WithResolvedAt(ts)| == 0 ==> r == 0
    ensures r as real - 0.5 <= MeanResolutionHours(ts) < r as real + 0.5
  {
    var resolved := WithResolvedAt(ts);
    if |resolved| == 0 then 0
    else RoundHalfUp(TotalElapsed(resolved) as real / |resolved| as real / MsPerHour as real)
  }

  lemma {:induction false} TotalOfUniform(ts: seq<Ticket>, e: int)
    requires forall i :: 0 <= i < |ts| ==> Elapsed(ts[i]) == e
    ensures TotalElapsed(ts) == |ts| * e
  {
    if ts != [] {
      TotalOfUniform(ts[1..], e);
    }
  }

  /** When every resolved ticket took exactly `k` hours, the average is `k`. */
  lemma AverageOfUniform(ts: seq<Ticket>, k: int)
    requires |WithResolvedAt(ts)| > 0
    requires forall i :: 0 <= i < |ts| ==> ts[i].resolvedAt.Some? ==> Elapsed(ts[i]) == k * MsPerHour
    ensures AverageResolutionHours(ts) == k
  {
    var resolved := WithResolvedAt(ts);
    TotalOfUniform(resolved, k * MsPerHour);
    MeanOfUniform(|resolved|, TotalElapsed(resolved), k);
  }

  lemma MeanOfUniform(n: int, total: int, k: int)
    requires n > 0 && total == n * (k * MsPerHour)
    ensures total as real / n as real / MsPerHour as real == k as real
  {
    var e := (k * MsPerHour) as real;
    assert total as real == n as real * e;
    assert total as real / n as real == e;
  }

  // ---- Tallies keyed by name ----

  /** A name and the id tickets refer to it by. */
  datatype Named = Named(name: string, id: string)

  /** Which ticket field a tally matches ids against. */
  datatype TallyBy = ByCategory | ByAssignee

  function Referencing(ts: seq<Ticket>, key: TallyBy, id: string): seq<Ticket>
  {
    match key
    case ByCategory => InCategory(ts, id)
    case ByAssignee => AssignedTo(ts, id)
  }

  /** The dictionary after the `forEach` over `named`: each name maps to its count, a later name overwriting an earlier one. */
  function TallySpec(named: seq<Named>, ts: seq<Ticket>, key: TallyBy): map<string, nat>
  {
    if named == [] then map[]
    else
      var last := named[|named| - 1];
      TallySpec(named[..|named| - 1], ts, key)[last.name := |Referencing(ts, key, last.id)|]
  }

  /** The tally has one key per name, and no other (a name with no tickets maps to 0). */
  lemma {:induction false} TallyKeys(named: seq<Named>, ts: seq<Ticket>, key: TallyBy)
    ensures forall n :: n in TallySpec(named, ts, key) <==> exists i :: 0 <= i < |named| && named[i].name == n
  {
    if named != [] {
      var init := named[..|named| - 1];
      TallyKeys(init, ts, key);
      forall n
        ensures n in TallySpec(named, ts, key) <==> exists i :: 0 <= i < |named| && named[i].name == n
      {
        if n in TallySpec(init, ts, key) {
          var i :| 0 <= i < |init| && init[i].name == n;
          assert named[i].name == n;
        }
        if exists i :: 0 <= i < |named| && named[i].name == n {
          var i :| 0 <= i < |named| && named[i].name == n;
          if i < |init| {
            assert init[i].name == n;
          }
        }
      }
    }
  }

  /**
   * A name's count is that of the LAST entry with the name, so a later category or technician
   * sharing a name hides the earlier one.
   */
  lemma TallyValues(named: seq<Named>, ts: seq<Ticket>, key: TallyBy)
    ensures forall i :: 0 <= i < |named| && (forall j :: i < j < |named| ==> named[j].name != named[i].name) ==>
      named[i].name in TallySpec(named, ts, key)
      && TallySpec(named, ts, key)[named[i].name] == |Referencing(ts, key, named[i].id)|
  {
    forall i | 0 <= i < |named| && (forall j :: i < j < |named| ==> named[j].name != named[i].name) {
      TallyValueAt(named, ts, key, i);
    }
  }

  /** The same for one entry, by induction on the entries after it. */
  lemma {:induction false} TallyValueAt(named: seq<Named>, ts: seq<Ticket>, key: TallyBy, i: nat)
    requires i < |named|
    requires forall j :: i < j < |named| ==> named[j].name != named[i].name
    ensures named[i].name in TallySpec(named, ts, key)
    ensures TallySpec(named, ts, key)[named[i].name] == |Referencing(ts, key, named[i].id)|
  {
    if i < |named| - 1 {
      var init := named[..|named| - 1];
      assert init[i] == named[i];
      assert named[|named| - 1].name != named[i].name;
      assert forall j :: i < j < |init| ==> init[j] == named[j];
      TallyValueAt(init, ts, key, i);
    }
  }

  /** The `forEach` loop writing one count per name into the dictionary. */
  method Tally(named: seq<Named>, ts: seq<Ticket>, key: TallyBy) returns (m: map<string, nat>)
    ensures m == TallySpec(named, ts, key)
  {
    m := map[];
    var k := 0;
    while k < |named|
      invariant 0 <= k <= |named|
      invariant m == TallySpec(named[..k], ts, key)
    {
      m := m[named[k].name := |Referencing(ts, key, named[k].id)|];
      k := k + 1;
      assert named[..k][..k - 1] == named[..k - 1];
    }
    assert named[..|named|] == named;
  }

  /** The categories as (name, id) pairs, in order. */
  function CategoryKeys(categories: seq<Category>): (r: seq<Named>)
    ensures |r| == |categories|
    ensures forall i :: 0 <= i < |r| ==> r[i] == Named(categories[i].name, categories[i].id)
  {
    seq(|categories|, i requires 0 <= i < |categories| => Named(categories[i].name, categories[i].id))
  }

  /** The technicians as (name, id) pairs, in order. */
  function TechnicianKeys(users: seq<User>): (r: seq<Named>)
    ensures |r| == |Technicians(users)|
    ensures forall i :: 0 <= i < |r| ==> r[i] == Named(Technicians(users)[i].name, Technicians(users)[i].id)
  {
    var techs := Technicians(users);
    seq(|techs|, i requires 0 <= i < |techs| => Named(techs[i].name, techs[i].id))
  }

  /** `ticketsByPriority`: exactly the four priority codes. */
  function PriorityTally(ts: seq<Ticket>): (m: map<string, nat>)
    ensures m.Keys == {"low", "medium", "high", "critical"}
    ensures m["low"] + m["medium"] + m["high"] + m["critical"] == |ts|
  {
    PriorityPartition(ts);
    map["low" := |WithPriority(ts, Low)|, "medium" := |WithPriority(ts, Medium)|,
        "high" := |WithPriority(ts, High)|, "critical" := |WithPriority(ts, Critical)|]
  }

  /**
   * `loadData`'s statistics over the store's tickets, users and (active) categories. The four
   * status counts leave waiting-for-user tickets to the total only.
   */
  method ComputeStats(ts: seq<Ticket>, users: seq<User>, categories: seq<Category>) returns (s: Stats)
    ensures s.totalTickets == |ts|
    ensures s.openTickets == |WithStatus(ts, Open)| && s.inProgressTickets == |WithStatus(ts, InProgress)|
    ensures s.resolvedTickets == |WithStatus(ts, Resolved)| && s.closedTickets == |WithStatus(ts, Closed)|
    ensures s.openTickets + s.inProgressTickets + s.resolvedTickets + s.closedTickets
            + |WithStatus(ts, WaitingUser)| == s.totalTickets
    ensures s.averageResolutionTime == AverageResolutionHours(ts)
    ensures s.ticketsByCategory == TallySpec(CategoryKeys(categories), ts, ByCategory)
    ensures s.ticketsByPriority == PriorityTally(ts)
    ensures s.ticketsByTechnician == TallySpec(TechnicianKeys(users), ts, ByAssignee)
  {
    StatusPartition(ts);
    var byCategory := Tally(CategoryKeys(categories), ts, ByCategory);
    var byTechnician := Tally(TechnicianKeys(users), ts, ByAssignee);
    s := Stats(|ts|, |WithStatus(ts, Open)|, |WithStatus(ts, InProgress)|, |WithStatus(ts, Resolved)|,
               |WithStatus(ts, Closed)|, AverageResolutionHours(ts), byCategory, PriorityTally(ts), byTechnician);
  }

  // ---- Role views ----

  predicate IsRole(actor: Option<User>, role: Role)
  {
    actor.Some? && actor.value.role == role
  }

  /** `userTickets`: an end user's own tickets; every other viewer gets all of them. */
  function UserTickets(actor: Option<User>, ts: seq<Ticket>): (r: seq<Ticket>)
    ensures IsRole(actor, EndUser) ==>
      (forall i :: 0 <= i < |r| ==> r[i].userId == actor.value.id && r[i] in ts)
      && (forall i :: 0 <= i < |ts| && ts[i].userId == actor.value.id ==> ts[i] in r)
    ensures !IsRole(actor, EndUser) ==> r == ts
  {
    if IsRole(actor, EndUser) then Filter(ts, (t: Ticket) => t.userId == actor.value.id) else ts
  }

  /** `assignedTickets`: a technician's own assignments; empty for every other viewer. */
  function AssignedTickets(actor: Option<User>, ts: seq<Ticket>): (r: seq<Ticket>)
    ensures IsRole(actor, Technician) ==>
      (forall i :: 0 <= i < |r| ==> r[i].assignedTo == Some(actor.value.id) && r[i] in ts)
      && (forall i :: 0 <= i < |ts| && ts[i].assignedTo == Some(actor.value.id) ==> ts[i] in r)
    ensures !IsRole(actor, Technician) ==> r == []
  {
    if IsRole(actor, Technician) then AssignedTo(ts, actor.value.id) else []
  }

  /** What the recent-tickets and SLA panels receive: assignments, own tickets, or everything. */
  function PanelTickets(actor: Option<User>, ts: seq<Ticket>): (r: seq<Ticket>)
    ensures IsRole(actor, Technician) ==>
      (forall i :: 0 <= i < |r| ==> r[i].assignedTo == Some(actor.value.id) && r[i] in ts)
      && (forall i :: 0 <= i < |ts| && ts[i].assignedTo == Some(actor.value.id) ==> ts[i] in r)
    ensures IsRole(actor, EndUser) ==>
      (forall i :: 0 <= i < |r| ==> r[i].userId == actor.value.id && r[i] in ts)
      && (forall i :: 0 <= i < |ts| && ts[i].userId == actor.value.id ==> ts[i] in r)
    ensures !IsRole(actor, Technician) && !IsRole(actor, EndUser) ==> r == ts
  {
    if IsRole(actor, Technician) then AssignedTickets(actor, ts)
    else if IsRole(actor, EndUser) then UserTickets(actor, ts)
    else ts
  }

  /**
   * The recent-tickets panel shows only tickets of the viewer's panel list: for a technician only
   * tickets assigned to them, for an end user only their own. The SLA cards count exactly the active
   * tickets of that list.
   */
  lemma PanelsFollowRole(actor: Option<User>, ts: seq<Ticket>, now: Time)
    ensures var p := PanelTickets(actor, ts);
      forall i :: 0 <= i < |Recent(p)| ==> Recent(p)[i] in p
    ensures IsRole(actor, Technician) ==>
      forall i :: 0 <= i < |Recent(PanelTickets(actor, ts))| ==>
        Recent(PanelTickets(actor, ts))[i].assignedTo == Some(actor.value.id) && Recent(PanelTickets(actor, ts))[i] in ts
    ensures IsRole(actor, EndUser) ==>
      forall i :: 0 <= i < |Recent(PanelTickets(actor, ts))| ==>
        Recent(PanelTickets(actor, ts))[i].userId == actor.value.id && Recent(PanelTickets(actor, ts))[i] in ts
    ensures var b := SlaBuckets(PanelTickets(actor, ts), now);
      b[0].count + b[1].count + b[2].count == |ActiveTickets(PanelTickets(actor, ts))|
    ensures IsRole(actor, Technician) ==>
      var act := ActiveTickets(PanelTickets(actor, ts));
      && (forall i :: 0 <= i < |act| ==> act[i].assignedTo == Some(actor.value.id) && act[i] in ts)
      && (forall i :: 0 <= i < |ts| && ts[i].assignedTo == Some(actor.value.id) && IsActive(ts[i]) ==> ts[i] in act)
  {
    var p := PanelTickets(actor, ts);
    var r := Recent(p);
    RecentAreNewest(p);
    forall i | 0 <= i < |r|
      ensures r[i] in p
    {
      assert r[i] in multiset(r);
    }
  }

  /**
   * The cards an end user sees: total, open, in-progress and resolved recounted over their own
   * tickets, while the closed count, the average and the tallies stay global; others see the stats as computed.
   */
  function ShownStats(actor: Option<User>, s: Stats, ts: seq<Ticket>): (r: Stats)
    ensures !IsRole(actor, EndUser) ==> r == s
    ensures IsRole(actor, EndUser) ==>
      var own := UserTickets(actor, ts);
      && r.totalTickets == |own| && r.openTickets == |WithStatus(own, Open)|
      && r.inProgressTickets == |WithStatus(own, InProgress)| && r.resolvedTickets == |WithStatus(own, Resolved)|
      && r.closedTickets == s.closedTickets && r.averageResolutionTime == s.averageResolutionTime
      && r.ticketsByCategory == s.ticketsByCategory && r.ticketsByPriority == s.ticketsByPriority
      && r.ticketsByTechnician == s.ticketsByTechnician
  {
    if IsRole(actor, EndUser) then
      var own := UserTickets(actor, ts);
      s.(totalTickets := |own|, openTickets := |WithStatus(own, Open)|,
         inProgressTickets := |WithStatus(own, InProgress)|, resolvedTickets := |WithStatus(own, Resolved)|)
    else s
  }

  /** An end user's recounted cards never exceed their own ticket total. */
  lemma {:induction false} ShownCountsWithinOwn(actor: Option<User>, s: Stats, ts: seq<Ticket>)
    requires IsRole(actor, EndUser)
    ensures var r := ShownStats(actor, s, ts);
      r.openTickets + r.inProgressTickets + r.resolvedTickets <= r.totalTickets
  {
    StatusPartition(UserTickets(actor, ts));
  }

  /** Over no tickets every count, tally value and the average are 0. */
  lemma EmptyDashboard(users: seq<User>, categories: seq<Category>)
    ensures AverageResolutionHours([]) == 0
    ensures PriorityTally([]) == map["low" := 0, "medium" := 0, "high" := 0, "critical" := 0]
    ensures forall n :: n in TallySpec(CategoryKeys(categories), [], ByCategory) ==>
      TallySpec(CategoryKeys(categories), [], ByCategory)[n] == 0
    ensures forall n :: n in TallySpec(TechnicianKeys(users), [], ByAssignee) ==>
      TallySpec(TechnicianKeys(users), [], ByAssignee)[n] == 0
  {
    EmptyTally(CategoryKeys(categories), ByCategory);
    EmptyTally(TechnicianKeys(users), ByAssignee);
  }

  lemma {:induction false} EmptyTally(named: seq<Named>, key: TallyBy)
    ensures forall n :: n in TallySpec(named, [], key) ==> TallySpec(named, [], key)[n] == 0
  {
    if named != [] {
      EmptyTally(named[..|named| - 1], key);
    }
  }
}
