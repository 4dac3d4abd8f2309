/**
 * The ticket list: name lookups, the search and the status/priority filters, and the
 * newest-first ordering (a stable sort, as `Array.prototype.sort` is).
 */
module TicketList {
  import opened Wrappers
  import opened Seqs
  import opened Types

  const UnknownUser: string := "Usuário não encontrado"
  const UnknownCategory: string := "Categoria não encontrada"

  /** `user?.name || 'Usuário não encontrado'`: an empty name falls back too. */
  function UserName(users: seq<User>, id: string): (r: string)
    ensures FindUser(users, id).None? ==> r == UnknownUser
    ensures FindUser(users, id).Some? && FindUser(users, id).value.name != "" ==> r == FindUser(users, id).value.name
    ensures FindUser(users, id).Some? && FindUser(users, id).value.name == "" ==> r == UnknownUser
    ensures r != ""
  {
    match FindUser(users, id)
    case Some(u) => if u.name != "" then u.name else UnknownUser
    case None => UnknownUser
  }

  /** `category?.name || 'Categoria não encontrada'`. */
  function CategoryName(categories: seq<Category>, id: string): (r: string)
    ensures FindCategory(categories, id).None? ==> r == UnknownCategory
    ensures FindCategory(categories, id).Some? && FindCategory(categories, id).value.name != "" ==>
      r == FindCategory(categories, id).value.name
    ensures FindCategory(categories, id).Some? && FindCategory(categories, id).value.name == "" ==>
      r == UnknownCategory
    ensures r != ""
  {
    match FindCategory(categories, id)
    case Some(c) => if c.name != "" then c.name else UnknownCategory
    case None => UnknownCategory
  }

  // ---- Case-insensitive search ----

  /** `toLowerCase` on one character: ASCII and Latin-1 capitals (not the multiplication sign). */
  function LowerChar(c: char): (r: char)
    ensures 'A' <= c <= 'Z' ==> r as int == c as int + 32
    ensures !('A' <= c <= 'Z') && !('À' <= c <= 'Þ' && c != '×') ==> r == c
  {
    if 'A' <= c <= 'Z' || ('À' <= c <= 'Þ' && c != '×') then (c as int + 32) as char else c
  }

  function Lower(s: string): (r: string)
    ensures |r| == |s|
    ensures forall i :: 0 <= i < |s| ==> r[i] == LowerChar(s[i])
  {
    if s == [] then [] else [LowerChar(s[0])] + Lower(s[1..])
  }

  /** Lowering twice is lowering once. */
  lemma LowerIdempotent(s: string)
    ensures Lower(Lower(s)) == Lower(s)
  {
  }

  predicate OccursAt(hay: string, needle: string, i: int)
  {
    0 <= i && i + |needle| <= |hay| && hay[i..i + |needle|] == needle
  }

  function ContainsFrom(hay: string, needle: string, from: nat): (r: bool)
    ensures r <==> exists i :: from <= i && OccursAt(hay, needle, i)
    decreases |hay| - from
  {
    if from + |needle| > |hay| then
      assert forall i :: from <= i ==> !OccursAt(hay, needle, i);
      false
    else OccursAt(hay, needle, from) || ContainsFrom(hay, needle, from + 1)
  }

  /** `String.prototype.includes`: the needle occurs somewhere; the empty needle occurs everywhere. */
  function Contains(hay: string, needle: string): (r: bool)
    ensures r <==> exists i :: OccursAt(hay, needle, i)
    ensures needle == [] ==> r
  {
    assert needle == [] ==> OccursAt(hay, needle, 0);
    ContainsFrom(hay, needle, 0)
  }

  /** Title, description or requester name contains the term, ignoring case. */
  predicate MatchesSearch(t: Ticket, users: seq<User>, term: string)
  {
    var needle := Lower(term);
    Contains(Lower(t.title), needle) || Contains(Lower(t.description), needle)
    || Contains(Lower(UserName(users, t.userId)), needle)
  }

  /** The empty search matches every ticket, and searching is blind to the term's case. */
  lemma SearchProperties(t: Ticket, users: seq<User>, term: string)
    ensures MatchesSearch(t, users, "")
    ensures MatchesSearch(t, users, Lower(term)) == MatchesSearch(t, users, term)
  {
    LowerIdempotent(term);
  }

  /** A filter value of `all` lets every status (or priority) through. */
  predicate MatchesStatus(t: Ticket, filter: string)
  {
    filter == "all" || StatusCode(t.status) == filter
  }

  predicate MatchesPriority(t: Ticket, filter: string)
  {
    filter == "all" || PriorityCode(t.priority) == filter
  }

  predicate Passes(t: Ticket, users: seq<User>, term: string, statusFilter: string, priorityFilter: string)
  {
    MatchesSearch(t, users, term) && MatchesStatus(t, statusFilter) && MatchesPriority(t, priorityFilter)
  }

  function PassesTest(users: seq<User>, term: string, statusFilter: string, priorityFilter: string): Ticket -> bool
  {
    (t: Ticket) => Passes(t, users, term, statusFilter, priorityFilter)
  }

  // ---- Newest first ----

  predicate SortedDesc(s: seq<Ticket>)
  {
    forall i, j :: 0 <= i < j < |s| ==> s[i].createdAt >= s[j].createdAt
  }

  /** Places `x` after every ticket at least as new as it, so equal timestamps keep their order. */
  function Insert(s: seq<Ticket>, x: Ticket): (r: seq<Ticket>)
  {
    if s == [] then [x]
    else if s[0].createdAt < x.createdAt then [x] + s
    else [s[0]] + Insert(s[1..], x)
  }

  /** The stable descending sort by `createdAt`: each ticket inserted in input order. */
  function SortNewestFirst(s: seq<Ticket>): seq<Ticket>
  {
    if s == [] then [] else Insert(SortNewestFirst(s[..|s| - 1]), s[|s| - 1])
  }

  lemma {:induction false} InsertPermutes(s: seq<Ticket>, x: Ticket)
    ensures multiset(Insert(s, x)) == multiset(s) + multiset{x}
  {
    if s != [] && s[0].createdAt >= x.createdAt {
      InsertPermutes(s[1..], x);
      assert s == [s[0]] + s[1..];
    }
  }

  lemma {:induction false} InsertSorted(s: seq<Ticket>, x: Ticket)
    requires SortedDesc(s)
    ensures SortedDesc(Insert(s, x))
  {
    if s != [] && s[0].createdAt >= x.createdAt {
      var rest := Insert(s[1..], x);
      InsertSorted(s[1..], x);
      InsertPermutes(s[1..], x);
      forall k | 0 <= k < |rest|
        ensures s[0].createdAt >= rest[k].createdAt
      {
        assert rest[k] in multiset(rest);
        if rest[k] != x {
          assert rest[k] in multiset(s[1..]);
          var m :| 0 <= m < |s[1..]| && s[1..][m] == rest[k];
          assert s[m + 1] == rest[k];
        }
      }
    }
  }

  /** The ordering is newest first and keeps exactly the input's tickets. */
  lemma {:induction false} SortProperties(s: seq<Ticket>)
    ensures SortedDesc(SortNewestFirst(s))
    ensures multiset(SortNewestFirst(s)) == multiset(s)
    ensures |SortNewestFirst(s)| == |s|
  {
    if s != [] {
      var init := s[..|s| - 1];
      SortProperties(init);
      InsertSorted(SortNewestFirst(init), s[|s| - 1]);
      InsertPermutes(SortNewestFirst(init), s[|s| - 1]);
      assert s == init + [s[|s| - 1]];
    }
    SortLength(s);
  }

  lemma {:induction false} SortLength(s: seq<Ticket>)
    ensures |SortNewestFirst(s)| == |s|
  {
    if s != [] {
      SortLength(s[..|s| - 1]);
      InsertLength(SortNewestFirst(s[..|s| - 1]), s[|s| - 1]);
    }
  }

  lemma {:induction false} InsertLength(s: seq<Ticket>, x: Ticket)
    ensures |Insert(s, x)| == |s| + 1
  {
    if s != [] {
      InsertLength(s[1..], x);
    }
  }

  lemma {:induction false} InsertOldest(s: seq<Ticket>, x: Ticket)
    requires forall i :: 0 <= i < |s| ==> s[i].createdAt >= x.createdAt
    ensures Insert(s, x) == s + [x]
  {
    if s != [] {
      InsertOldest(s[1..], x);
    }
  }

  /** Input already newest first is left as it is: in particular, sorting twice is sorting once. */
  lemma {:induction false} SortKeepsSorted(s: seq<Ticket>)
    requires SortedDesc(s)
    ensures SortNewestFirst(s) == s
  {
    if s != [] {
      var init := s[..|s| - 1];
      SortKeepsSorted(init);
      InsertOldest(init, s[|s| - 1]);
    }
  }

  lemma SortKeepsMembers(s: seq<Ticket>)
    ensures forall i :: 0 <= i < |SortNewestFirst(s)| ==> SortNewestFirst(s)[i] in s
    ensures forall i :: 0 <= i < |s| ==> s[i] in SortNewestFirst(s)
  {
    SortProperties(s);
    var r := SortNewestFirst(s);
    forall i | 0 <= i < |r|
      ensures r[i] in s
    {
      assert r[i] in multiset(r);
    }
    forall i | 0 <= i < |s|
      ensures s[i] in r
    {
      assert s[i] in multiset(s);
    }
  }

  /** `filteredTickets`: the tickets passing search, status and priority, newest first. */
  function FilteredTickets(ts: seq<Ticket>, users: seq<User>, term: string, statusFilter: string,
                           priorityFilter: string): (r: seq<Ticket>)
    ensures SortedDesc(r)
    ensures forall i :: 0 <= i < |r| ==> r[i] in ts && Passes(r[i], users, term, statusFilter, priorityFilter)
    ensures forall i :: 0 <= i < |ts| && Passes(ts[i], users, term, statusFilter, priorityFilter) ==> ts[i] in r
    ensures multiset(r) == multiset(Filter(ts, PassesTest(users, term, statusFilter, priorityFilter)))
  {
    var kept := Filter(ts, PassesTest(users, term, statusFilter, priorityFilter));
    SortProperties(kept);
    SortKeepsMembers(kept);
    SortNewestFirst(kept)
  }

  /** With an empty search and both filters on `all`, every ticket is listed. */
  lemma NoFilterListsAll(ts: seq<Ticket>, users: seq<User>)
    ensures multiset(FilteredTickets(ts, users, "", "all", "all")) == multiset(ts)
  {
    forall i | 0 <= i < |ts|
      ensures Passes(ts[i], users, "", "all", "all")
    {
      SearchProperties(ts[i], users, "");
    }
    FilterAll(ts, PassesTest(users, "", "all", "all"));
  }
}
