/** src/components/test.tsx: the "Review desk" summary over a list of tickets:
    the pending ones, the critical and high counts, the oldest ticket (a left
    `reduce` with a strict comparison) and the list sorted newest first (a
    stable sort of a copy). The list itself is a parameter. */
module ReviewDesk {
  import opened Types
  import opened Seqs

  function HasStatus(s: TicketStatus): Ticket -> bool
  {
    (t: Ticket) => t.status == s
  }

  function HasPriority(p: Priority): Ticket -> bool
  {
    (t: Ticket) => t.priority == p
  }

  /** `tickets.filter(ticket => ticket.status === "Pending")`. */
  function PendingTickets(tickets: seq<Ticket>): seq<Ticket>
  {
    Filter(tickets, HasStatus(Pending))
  }

  /** The pending list is the order-preserving subsequence of Pending tickets. */
  lemma PendingSpec(tickets: seq<Ticket>)
    ensures var r := PendingTickets(tickets);
      && IsSubsequence(r, tickets)
      && (forall t :: t in r <==> t in tickets && t.status == Pending)
      && (forall t :: multiset(r)[t] == if t.status == Pending then multiset(tickets)[t] else 0)
  {
    FilterSpec(tickets, HasStatus(Pending));
  }

  function PriorityCount(tickets: seq<Ticket>, p: Priority): nat
  {
    Count(tickets, HasPriority(p))
  }

  /** The critical and high counts count exactly the tickets of that priority;
      together they never exceed the list. */
  lemma {:induction false} PriorityCountsSpec(tickets: seq<Ticket>)
    ensures forall t :: t in Filter(tickets, HasPriority(Critical)) <==> t in tickets && t.priority == Critical
    ensures forall t :: t in Filter(tickets, HasPriority(High)) <==> t in tickets && t.priority == High
    ensures PriorityCount(tickets, Critical) + PriorityCount(tickets, High) <= |tickets|
  {
    FilterSpec(tickets, HasPriority(Critical));
    FilterSpec(tickets, HasPriority(High));
    CountDisjoint(tickets, HasPriority(Critical), HasPriority(High));
  }

  // ---------------------------------------------------------------------------
  // The oldest ticket

  /** One step of the reduce: the first ticket seen is taken; after that a ticket
      replaces the current one only if it is strictly older. */
  function OlderOf(current: Option<Ticket>, next: Ticket): Ticket
  {
    if current.None? then next
    else if next.createdAt < current.value.createdAt then next
    else current.value
  }

  /** `tickets.reduce(step, null)`, a fold from the left: null only for an empty
      list, otherwise one of the tickets. */
  function Oldest(tickets: seq<Ticket>): (r: Option<Ticket>)
    ensures r.None? <==> tickets == []
    ensures r.Some? ==> r.value in tickets
  {
    if tickets == [] then None
    else Some(OlderOf(Oldest(tickets[..|tickets| - 1]), tickets[|tickets| - 1]))
  }

  /** `oldest` is null exactly for an empty list; otherwise it is the element at
      some index k with the least creation time, and no earlier element has that
      time (ties go to the earliest ticket). */
  lemma {:induction false} OldestSpec(tickets: seq<Ticket>) returns (k: nat)
    ensures Oldest(tickets).None? <==> tickets == []
    ensures tickets != [] ==>
      && k < |tickets| && Oldest(tickets) == Some(tickets[k])
      && (forall j :: 0 <= j < |tickets| ==> tickets[k].createdAt <= tickets[j].createdAt)
      && (forall j :: 0 <= j < k ==> tickets[j].createdAt > tickets[k].createdAt)
  {
    if tickets == [] {
      return 0;
    }
    var n := |tickets| - 1;
    var init := tickets[..n];
    if init == [] {
      return 0;
    }
    var m := OldestSpec(init);
    assert forall j :: 0 <= j < n ==> init[j] == tickets[j];
    assert Oldest(tickets) == Some(OlderOf(Some(tickets[m]), tickets[n]));
    k := if tickets[n].createdAt < tickets[m].createdAt then n else m;
  }

  // ---------------------------------------------------------------------------
  // Newest first

  /** Places `x` before the first ticket that is not newer than it. */
  function InsertByDate(x: Ticket, r: seq<Ticket>): seq<Ticket>
  {
    if r == [] then [x]
    else if r[0].createdAt <= x.createdAt then [x] + r
    else [r[0]] + InsertByDate(x, r[1..])
  }

  /** `[...tickets].sort((a, b) => b.createdAt - a.createdAt)`: a stable sort of a
      copy, newest first. The copy holds the same tickets, each as often. */
  function SortedByDate(tickets: seq<Ticket>): (r: seq<Ticket>)
    ensures |r| == |tickets|
    ensures multiset(r) == multiset(tickets)
  {
    if tickets == [] then []
    else
      var rest := SortedByDate(tickets[1..]);
      InsertByDateCounts(tickets[0], rest);
      assert multiset(tickets) == multiset(tickets[1..]) + multiset{tickets[0]} by {
        assert tickets == [tickets[0]] + tickets[1..];
      }
      InsertByDate(tickets[0], rest)
  }

  predicate NewestFirst(r: seq<Ticket>)
  {
    forall i, j :: 0 <= i < j < |r| ==> r[i].createdAt >= r[j].createdAt
  }

  /** Insertion adds exactly `x`. */
  lemma {:induction false} InsertByDateCounts(x: Ticket, r: seq<Ticket>)
    ensures multiset(InsertByDate(x, r)) == multiset(r) + multiset{x}
    ensures |InsertByDate(x, r)| == |r| + 1
  {
    if r != [] && r[0].createdAt > x.createdAt {
      InsertByDateCounts(x, r[1..]);
      assert r == [r[0]] + r[1..];
    }
  }

  /** Insertion into a newest-first list keeps it newest first; its head is `x`
      or the old head. */
  lemma {:induction false} InsertByDateSorted(x: Ticket, r: seq<Ticket>)
    requires NewestFirst(r)
    ensures NewestFirst(InsertByDate(x, r))
    ensures r != [] ==> InsertByDate(x, r)[0] == x || InsertByDate(x, r)[0] == r[0]
  {
    if r != [] && r[0].createdAt > x.createdAt {
      var tail := InsertByDate(x, r[1..]);
      InsertByDateSorted(x, r[1..]);
      if r[1..] != [] {
        assert tail[0] == x || tail[0] == r[1];
      }
      assert r[0].createdAt >= tail[0].createdAt;
      var res := [r[0]] + tail;
      forall i, j | 0 <= i < j < |res| ensures res[i].createdAt >= res[j].createdAt {
        if i == 0 {
          assert res[j] == tail[j - 1];
          assert tail[0].createdAt >= tail[j - 1].createdAt || j - 1 == 0;
        } else {
          assert res[i] == tail[i - 1] && res[j] == tail[j - 1];
        }
      }
      assert InsertByDate(x, r) == res;
    }
  }

  /** The sorted list holds the same tickets, each as often, newest first; the
      input is a value and stays as it was. */
  lemma {:induction false} SortedByDateSpec(tickets: seq<Ticket>)
    ensures NewestFirst(SortedByDate(tickets))
    ensures multiset(SortedByDate(tickets)) == multiset(tickets)
    ensures |SortedByDate(tickets)| == |tickets|
  {
    if tickets != [] {
      var rest := SortedByDate(tickets[1..]);
      SortedByDateSpec(tickets[1..]);
      InsertByDateCounts(tickets[0], rest);
      InsertByDateSorted(tickets[0], rest);
      assert tickets == [tickets[0]] + tickets[1..];
      assert multiset(tickets) == multiset{tickets[0]} + multiset(tickets[1..]);
    }
  }

  function CreatedAtIs(k: int): Ticket -> bool
  {
    (t: Ticket) => t.createdAt == k
  }

  /** Inserting a ticket among those with its time puts it first of them, and
      leaves the others' order alone. */
  lemma {:induction false} InsertByDateStable(x: Ticket, r: seq<Ticket>, k: int)
    requires NewestFirst(r)
    ensures Filter(InsertByDate(x, r), CreatedAtIs(k))
      == (if x.createdAt == k then [x] else []) + Filter(r, CreatedAtIs(k))
  {
    if r == [] {
    } else if r[0].createdAt <= x.createdAt {
      FilterAppend([x], r, CreatedAtIs(k));
    } else {
      assert NewestFirst(r[1..]);
      InsertByDateStable(x, r[1..], k);
      FilterAppend([r[0]], InsertByDate(x, r[1..]), CreatedAtIs(k));
      FilterAppend([r[0]], r[1..], CreatedAtIs(k));
      assert r == [r[0]] + r[1..];
      if x.createdAt == k {
        assert r[0].createdAt != k;
      }
    }
  }

  /** The sort is stable: the tickets created at any one time keep their order. */
  lemma {:induction false} SortedByDateStable(tickets: seq<Ticket>, k: int)
    ensures Filter(SortedByDate(tickets), CreatedAtIs(k)) == Filter(tickets, CreatedAtIs(k))
  {
    if tickets != [] {
      SortedByDateStable(tickets[1..], k);
      SortedByDateSpec(tickets[1..]);
      InsertByDateStable(tickets[0], SortedByDate(tickets[1..]), k);
      FilterAppend([tickets[0]], tickets[1..], CreatedAtIs(k));
      assert tickets == [tickets[0]] + tickets[1..];
    }
  }

  // ---------------------------------------------------------------------------
  // The page

  datatype Desk =
    | NothingWaiting
    | Summary(pending: seq<Ticket>, critical: nat, high: nat, oldest: Ticket, sorted: seq<Ticket>)

  function DeskFor(tickets: seq<Ticket>): (d: Desk)
    ensures d.NothingWaiting? <==> tickets == []
  {
    if tickets == [] then NothingWaiting
    else
      Summary(PendingTickets(tickets), PriorityCount(tickets, Critical), PriorityCount(tickets, High),
              Oldest(tickets).value, SortedByDate(tickets))
  }
}
