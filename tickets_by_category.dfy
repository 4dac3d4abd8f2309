/** The dashboard's per-category bars: each category's ticket count and share, empty categories dropped. */
module TicketsByCategory {
  import opened Types
  import opened TicketCounts
  import opened Seqs

  datatype CategoryShare = CategoryShare(name: string, count: nat, color: string, percentage: real)

  /** One bar before the empty ones are dropped: the percentage is 0 over no tickets. */
  function Share(c: Category, ts: seq<Ticket>): CategoryShare
  {
    var count := |InCategory(ts, c.id)|;
    CategoryShare(c.name, count, c.color,
                  if |ts| > 0 then (count as real / |ts| as real) * 100.0 else 0.0)
  }

  /** `categories.map(share).filter(count > 0)`. */
  function CategoryData(categories: seq<Category>, ts: seq<Ticket>): (r: seq<CategoryShare>)
    ensures |r| <= |categories|
    ensures forall i :: 0 <= i < |r| ==>
      r[i].count > 0 && exists j :: 0 <= j < |categories| && r[i] == Share(categories[j], ts)
    ensures forall j :: 0 <= j < |categories| && Share(categories[j], ts).count > 0 ==>
      Share(categories[j], ts) in r
  {
    if categories == [] then []
    else
      var s := Share(categories[0], ts);
      var rest := CategoryData(categories[1..], ts);
      BarsOfTail(categories, ts, rest);
      if s.count > 0 then [s] + rest else rest
  }

  /** The bars of all but the first category are bars of the whole list, shifted by one index. */
  lemma BarsOfTail(categories: seq<Category>, ts: seq<Ticket>, rest: seq<CategoryShare>)
    requires |categories| > 0
    requires forall i :: 0 <= i < |rest| ==>
      rest[i].count > 0 && exists j :: 0 <= j < |categories| - 1 && rest[i] == Share(categories[1..][j], ts)
    requires forall j :: 0 <= j < |categories| - 1 && Share(categories[1..][j], ts).count > 0 ==>
      Share(categories[1..][j], ts) in rest
    ensures forall i :: 0 <= i < |rest| ==>
      rest[i].count > 0 && exists j :: 1 <= j < |categories| && rest[i] == Share(categories[j], ts)
    ensures forall j :: 1 <= j < |categories| && Share(categories[j], ts).count > 0 ==>
      Share(categories[j], ts) in rest
  {
    forall i | 0 <= i < |rest|
      ensures rest[i].count > 0 && exists j :: 1 <= j < |categories| && rest[i] == Share(categories[j], ts)
    {
      var j :| 0 <= j < |categories| - 1 && rest[i] == Share(categories[1..][j], ts);
      assert categories[1..][j] == categories[j + 1];
      assert 1 <= j + 1 < |categories| && rest[i] == Share(categories[j + 1], ts);
    }
    forall j | 1 <= j < |categories| && Share(categories[j], ts).count > 0
      ensures Share(categories[j], ts) in rest
    {
      assert categories[1..][j - 1] == categories[j];
    }
  }

  // ---- Reference definition: map every category to its share, then filter ----

  /** The shares before any is dropped, one per category, in the category list's order. */
  function Shares(categories: seq<Category>, ts: seq<Ticket>): (r: seq<CategoryShare>)
    ensures |r| == |categories|
    ensures forall i :: 0 <= i < |r| ==> r[i] == Share(categories[i], ts)
  {
    if categories == [] then [] else [Share(categories[0], ts)] + Shares(categories[1..], ts)
  }

  predicate HasTickets(s: CategoryShare)
  {
    s.count > 0
  }

  /** The bars are exactly the non-empty shares, in the order of the category list. */
  lemma {:induction false} CategoryDataKeepsOrder(categories: seq<Category>, ts: seq<Ticket>)
    ensures CategoryData(categories, ts) == Filter(Shares(categories, ts), HasTickets)
  {
    if categories != [] {
      var all := Shares(categories, ts);
      assert all[1..] == Shares(categories[1..], ts);
      CategoryDataKeepsOrder(categories[1..], ts);
    }
  }

  /** Every bar's percentage is its count over the total, a value in (0, 100]. */
  lemma SharePercentages(categories: seq<Category>, ts: seq<Ticket>)
    ensures forall i :: 0 <= i < |CategoryData(categories, ts)| ==>
      var s := CategoryData(categories, ts)[i];
      && s.count <= |ts|
      && s.percentage == (s.count as real / |ts| as real) * 100.0
      && 0.0 < s.percentage <= 100.0
  {
    var r := CategoryData(categories, ts);
    forall i | 0 <= i < |r|
      ensures r[i].count <= |ts| && r[i].percentage == (r[i].count as real / |ts| as real) * 100.0
      ensures 0.0 < r[i].percentage <= 100.0
    {
      var j :| 0 <= j < |categories| && r[i] == Share(categories[j], ts);
      RatioAtMostOne(r[i].count, |ts|);
    }
  }

  lemma RatioAtMostOne(count: nat, n: nat)
    requires 0 < count <= n
    ensures 0.0 < (count as real / n as real) * 100.0 <= 100.0
  {
    assert count as real / n as real <= 1.0;
  }

  // ---- The bars never count a ticket twice ----

  predicate DistinctIds(categories: seq<Category>)
  {
    forall i, j :: 0 <= i < j < |categories| ==> categories[i].id != categories[j].id
  }

  function TotalCount(shares: seq<CategoryShare>): nat
  {
    if shares == [] then 0 else shares[0].count + TotalCount(shares[1..])
  }

  /** The counts before empty categories are dropped. */
  function CountIn(categories: seq<Category>, ts: seq<Ticket>): nat
  {
    if categories == [] then 0 else |InCategory(ts, categories[0].id)| + CountIn(categories[1..], ts)
  }

  /** How many categories carry the id. */
  function Matching(categories: seq<Category>, id: string): nat
  {
    if categories == [] then 0 else (if categories[0].id == id then 1 else 0) + Matching(categories[1..], id)
  }

  lemma {:induction false} DroppingEmptyKeepsTotal(categories: seq<Category>, ts: seq<Ticket>)
    ensures TotalCount(CategoryData(categories, ts)) == CountIn(categories, ts)
  {
    if categories != [] {
      DroppingEmptyKeepsTotal(categories[1..], ts);
    }
  }

  lemma {:induction false} CountInCons(categories: seq<Category>, t: Ticket, rest: seq<Ticket>)
    ensures CountIn(categories, [t] + rest) == CountIn(categories, rest) + Matching(categories, t.category)
  {
    assert ([t] + rest)[0] == t && ([t] + rest)[1..] == rest;
    if categories != [] {
      CountInCons(categories[1..], t, rest);
    }
  }

  lemma {:induction false} MatchingNone(categories: seq<Category>, id: string)
    requires forall i :: 0 <= i < |categories| ==> categories[i].id != id
    ensures Matching(categories, id) == 0
  {
    if categories != [] {
      MatchingNone(categories[1..], id);
    }
  }

  lemma {:induction false} MatchingAtMostOne(categories: seq<Category>, id: string)
    requires DistinctIds(categories)
    ensures Matching(categories, id) <= 1
  {
    if categories != [] {
      if categories[0].id == id {
        MatchingNone(categories[1..], id);
      } else {
        MatchingAtMostOne(categories[1..], id);
      }
    }
  }

  /** With distinct category ids the bars' counts add up to at most the number of tickets. */
  lemma {:induction false} CategoryCountsBounded(categories: seq<Category>, ts: seq<Ticket>)
    requires DistinctIds(categories)
    ensures TotalCount(CategoryData(categories, ts)) <= |ts|
  {
    DroppingEmptyKeepsTotal(categories, ts);
    CountInBounded(categories, ts);
  }

  lemma {:induction false} CountInBounded(categories: seq<Category>, ts: seq<Ticket>)
    requires DistinctIds(categories)
    ensures CountIn(categories, ts) <= |ts|
  {
    if ts == [] {
      NoTicketsNoCount(categories);
    } else {
      assert ts == [ts[0]] + ts[1..];
      CountInCons(categories, ts[0], ts[1..]);
      MatchingAtMostOne(categories, ts[0].category);
      CountInBounded(categories, ts[1..]);
    }
  }

  lemma {:induction false} NoTicketsNoCount(categories: seq<Category>)
    ensures CountIn(categories, []) == 0
  {
    if categories != [] {
      NoTicketsNoCount(categories[1..]);
    }
  }
}
