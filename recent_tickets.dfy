/**
 * The dashboard's recent-tickets panel: the caller's array is sorted newest first in place
 * (`tickets.sort(...)` mutates its receiver), then the first five are shown.
 */
module RecentTickets {
  import opened Types
  import opened TicketList

  const Shown: nat := 5

  /** The panel's content for a given ticket order: the five newest, newest first. */
  function Recent(s: seq<Ticket>): (r: seq<Ticket>)
    ensures |r| == if |s| < Shown then |s| else Shown
  {
    SortProperties(s);
    var sorted := SortNewestFirst(s);
    sorted[..if |sorted| < Shown then |sorted| else Shown]
  }

  /**
   * The panel shows the newest tickets, newest first: each ticket left out is no newer than
   * any ticket shown, and every shown ticket comes from the input.
   */
  lemma RecentAreNewest(s: seq<Ticket>)
    ensures SortedDesc(Recent(s))
    ensures multiset(Recent(s)) <= multiset(s)
    ensures forall j :: 0 <= j < |s| ==>
      s[j] in Recent(s) || forall i :: 0 <= i < |Recent(s)| ==> Recent(s)[i].createdAt >= s[j].createdAt
  {
    SortProperties(s);
    var sorted := SortNewestFirst(s);
    var r := Recent(s);
    assert sorted == r + sorted[|r|..];
    assert multiset(sorted) == multiset(r) + multiset(sorted[|r|..]);
    forall j | 0 <= j < |s|
      ensures s[j] in r || forall i :: 0 <= i < |r| ==> r[i].createdAt >= s[j].createdAt
    {
      assert s[j] in multiset(sorted);
      var k :| 0 <= k < |sorted| && sorted[k] == s[j];
      if k < |r| {
        assert r[k] == s[j];
      }
    }
  }

  /** Inserting `x` lands it at `j` when everything before `j` is at least as new and everything after is older. */
  lemma {:induction false} InsertAt(s: seq<Ticket>, x: Ticket, j: nat)
    requires SortedDesc(s) && j <= |s|
    requires j == 0 || s[j - 1].createdAt >= x.createdAt
    requires forall k :: j <= k < |s| ==> s[k].createdAt < x.createdAt
    ensures Insert(s, x) == s[..j] + [x] + s[j..]
  {
    if j > 0 {
      InsertAt(s[1..], x, j - 1);
      assert s[1..][..j - 1] == s[1..j];
      assert s == [s[0]] + s[1..j] + s[j..];
    }
  }

  /** The array part-way through an insertion: `x`, taken from `i`, sits at `j`; the rest keeps its order. */
  function Picture(orig: seq<Ticket>, x: Ticket, j: nat, i: nat): seq<Ticket>
    requires j <= i < |orig|
  {
    orig[..j] + [x] + orig[j..i] + orig[i + 1..]
  }

  lemma PictureParts(orig: seq<Ticket>, x: Ticket, j: nat, i: nat)
    requires j <= i < |orig|
    ensures |Picture(orig, x, j, i)| == |orig|
    ensures Picture(orig, x, j, i)[..i + 1] == orig[..j] + [x] + orig[j..i]
    ensures Picture(orig, x, j, i)[i + 1..] == orig[i + 1..]
    ensures j > 0 ==> Picture(orig, x, j, i)[j - 1] == orig[j - 1]
  {
    var p := Picture(orig, x, j, i);
    assert p == (orig[..j] + [x] + orig[j..i]) + orig[i + 1..];
  }

  /** Swapping `x` with its left neighbour moves it one place left in the picture. */
  lemma SwapLeft(orig: seq<Ticket>, x: Ticket, j: nat, i: nat)
    requires 0 < j <= i < |orig|
    ensures Picture(orig, x, j, i)[j - 1 := x][j := orig[j - 1]] == Picture(orig, x, j - 1, i)
  {
    PictureParts(orig, x, j, i);
  }

  method Swap(a: array<Ticket>, p: nat, q: nat)
    requires p < a.Length && q < a.Length
    modifies a
    ensures a[..] == old(a[..])[p := old(a[q])][q := old(a[p])]
  {
    a[p], a[q] := a[q], a[p];
  }

  /**
   * Swaps `a[i]` leftwards past the tickets older than it, stopping at the first one at least
   * as new; returns where it came to rest.
   */
  method ShiftLeft(a: array<Ticket>, i: nat) returns (j: nat)
    requires i < a.Length
    modifies a
    ensures j <= i
    ensures a[..] == Picture(old(a[..]), old(a[i]), j, i)
    ensures j == 0 || old(a[..])[j - 1].createdAt >= old(a[i]).createdAt
    ensures forall k :: j <= k < i ==> old(a[..])[k].createdAt < old(a[i]).createdAt
  {
    var x := a[i];
    ghost var orig := a[..];
    j := i;
    PictureParts(orig, x, j, i);
    assert orig[..i] + [x] + orig[i..i] + orig[i + 1..] == orig;
    while j > 0 && a[j - 1].createdAt < x.createdAt
      invariant 0 <= j <= i
      invariant a[..] == Picture(orig, x, j, i)
      invariant forall k :: j <= k < i ==> orig[k].createdAt < x.createdAt
    {
      PictureParts(orig, x, j, i);
      SwapLeft(orig, x, j, i);
      Swap(a, j - 1, j);
      j := j - 1;
    }
    PictureParts(orig, x, j, i);
  }

  /** One insertion: `a[i]` moved into place in the sorted prefix `a[..i]`. */
  method InsertStep(a: array<Ticket>, i: nat)
    requires i < a.Length && SortedDesc(a[..i])
    modifies a
    ensures a[..i + 1] == Insert(old(a[..i]), old(a[i]))
    ensures a[i + 1..] == old(a[i + 1..])
  {
    ghost var orig := a[..];
    ghost var x := a[i];
    var j := ShiftLeft(a, i);
    PictureParts(orig, x, j, i);
    assert orig[..i][..j] == orig[..j] && orig[..i][j..] == orig[j..i];
    InsertAt(orig[..i], x, j);
  }

  /** The in-place sort: insertion by adjacent swaps, which keeps equal timestamps in order. */
  method SortInPlace(a: array<Ticket>)
    modifies a
    ensures a[..] == SortNewestFirst(old(a[..]))
  {
    ghost var orig := a[..];
    var i := 0;
    while i < a.Length
      invariant 0 <= i <= a.Length
      invariant a[..i] == SortNewestFirst(orig[..i])
      invariant a[i..] == orig[i..]
    {
      SortProperties(orig[..i]);
      InsertStep(a, i);
      assert orig[..i + 1][..i] == orig[..i];
      assert orig[..i + 1][i] == orig[i];
      i := i + 1;
    }
    assert a[..] == a[..a.Length] && orig == orig[..a.Length];
  }

  /** `recentTickets`: the caller's array left sorted newest first, and its first five. */
  method RecentTickets(a: array<Ticket>) returns (shown: seq<Ticket>)
    modifies a
    ensures a[..] == SortNewestFirst(old(a[..]))
    ensures shown == Recent(old(a[..]))
  {
    SortInPlace(a);
    shown := a[..if a.Length < Shown then a.Length else Shown];
  }
}
