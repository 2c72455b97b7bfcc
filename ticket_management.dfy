/** src/components/TicketManagement.tsx: the ticket list page. The filter state
    (search text and the status, priority and category selections, each a
    string where "all" means no constraint) lives in a class whose methods are
    the click handlers; the list, the counts, the filter chips, the "time ago"
    text and the assignee initials are functions of that state. */
module TicketManagement {
  import opened Types
  import opened Strings
  import opened Seqs

  /** The option meaning "no constraint". */
  const All := "all"

  datatype Criteria = Criteria(search: string, status: string, priority: string, category: string)

  /** The criteria the page starts with and Clear Filters returns to. */
  const NoCriteria := Criteria("", All, All, All)

  /** Search looks at the title and the description only. */
  predicate MatchesSearch(t: Ticket, term: string)
  {
    ContainsIgnoreCase(t.title, term) || ContainsIgnoreCase(t.description, term)
  }

  /** `filter === 'all' || value === filter`. */
  predicate MatchesOption(value: string, filter: string)
  {
    filter == All || value == filter
  }

  predicate Matches(c: Criteria, t: Ticket)
  {
    MatchesSearch(t, c.search)
    && MatchesOption(StatusLabel(t.status), c.status)
    && MatchesOption(PriorityLabel(t.priority), c.priority)
    && MatchesOption(CategoryLabel(t.category), c.category)
  }

  /** `filteredTickets`. */
  function FilteredTickets(tickets: seq<Ticket>, c: Criteria): (r: seq<Ticket>)
    ensures |r| <= |tickets|
  {
    Filter(tickets, t => Matches(c, t))
  }

  /** The list shown is the order-preserving subsequence of the tickets meeting all
      four criteria together: every shown ticket meets them, every ticket meeting
      them is shown, as often as it occurs. */
  lemma FilteredTicketsSpec(tickets: seq<Ticket>, c: Criteria)
    ensures var r := FilteredTickets(tickets, c);
      && IsSubsequence(r, tickets)
      && (forall i :: 0 <= i < |r| ==> Matches(c, r[i]))
      && (forall t :: t in r <==> t in tickets && Matches(c, t))
      && (forall t :: multiset(r)[t] == if Matches(c, t) then multiset(tickets)[t] else 0)
  {
    FilterSpec(tickets, t => Matches(c, t));
  }

  /** An empty search matches every ticket, and "all" constrains nothing: a
      criterion left at its default neither adds nor removes anything. */
  lemma {:induction false} DefaultCriteriaNoConstraint(c: Criteria, t: Ticket)
    ensures MatchesSearch(t, "")
    ensures c.status == All && c.priority == All && c.category == All ==>
      (Matches(c, t) <==> MatchesSearch(t, c.search))
  {
    ContainsIgnoreCaseEmpty(t.title);
  }

  /** With the initial criteria every ticket is listed, in the original order. */
  lemma {:induction false} NoCriteriaShowsAll(tickets: seq<Ticket>)
    ensures FilteredTickets(tickets, NoCriteria) == tickets
  {
    forall i | 0 <= i < |tickets| ensures Matches(NoCriteria, tickets[i]) {
      ContainsIgnoreCaseEmpty(tickets[i].title);
    }
    FilterAll(tickets, t => Matches(NoCriteria, t));
  }

  /** The search compares case-insensitively: typing it in capitals finds the same tickets. */
  lemma {:induction false} SearchIgnoresCase(tickets: seq<Ticket>, c: Criteria)
    ensures FilteredTickets(tickets, c.(search := ToLower(c.search))) == FilteredTickets(tickets, c)
  {
    var c' := c.(search := ToLower(c.search));
    forall i | 0 <= i < |tickets| ensures Matches(c', tickets[i]) == Matches(c, tickets[i]) {
      ContainsIgnoreCaseOfLowered(tickets[i].title, c.search);
      ContainsIgnoreCaseOfLowered(tickets[i].description, c.search);
    }
    FilterCongruent(tickets, t => Matches(c', t), t => Matches(c, t));
  }

  // ---------------------------------------------------------------------------
  // Stat cards

  /** The value on the card for one status. */
  function StatusCount(tickets: seq<Ticket>, s: TicketStatus): nat
  {
    Count(tickets, (t: Ticket) => t.status == s)
  }

  /** What a status card counts: the tickets with exactly that status. */
  lemma {:induction false} StatusCountExact(tickets: seq<Ticket>, s: TicketStatus)
    ensures StatusCount(tickets, s) == |Filter(tickets, (t: Ticket) => t.status == s)|
    ensures StatusCount(tickets, s) <= |tickets|
    ensures forall t :: t in Filter(tickets, (t: Ticket) => t.status == s) <==> t in tickets && t.status == s
  {
    FilterSpec(tickets, (t: Ticket) => t.status == s);
  }

  function StatusCountsSum(tickets: seq<Ticket>): nat
  {
    StatusCount(tickets, Open) + StatusCount(tickets, InProgress) + StatusCount(tickets, Pending)
    + StatusCount(tickets, Resolved) + StatusCount(tickets, Closed)
  }

  /** Every ticket has exactly one of the five statuses, so the five status
      cards add up to the Total card. */
  lemma {:induction false} StatusCountsAddUp(tickets: seq<Ticket>)
    ensures StatusCountsSum(tickets) == |tickets|
  {
    if tickets != [] {
      StatusCountsAddUp(tickets[1..]);
      assert tickets == [tickets[0]] + tickets[1..];
      FilterAppend([tickets[0]], tickets[1..], (t: Ticket) => t.status == Open);
      FilterAppend([tickets[0]], tickets[1..], (t: Ticket) => t.status == InProgress);
      FilterAppend([tickets[0]], tickets[1..], (t: Ticket) => t.status == Pending);
      FilterAppend([tickets[0]], tickets[1..], (t: Ticket) => t.status == Resolved);
      FilterAppend([tickets[0]], tickets[1..], (t: Ticket) => t.status == Closed);
    }
  }

  // ---------------------------------------------------------------------------
  // Active filter chips

  datatype Tone = Blue | Red | Slate | Green
  datatype Chip = Chip(text: string, tone: Tone)

  function ToneRank(t: Tone): nat
  {
    match t
    case Blue => 0
    case Red => 1
    case Slate => 2
    case Green => 3
  }

  /** The chip each criterion shows when it is not at its default. */
  function StatusChip(c: Criteria): seq<Chip>
  {
    if c.status != All then [Chip("Status: " + c.status, Blue)] else []
  }

  function PriorityChip(c: Criteria): seq<Chip>
  {
    if c.priority != All then [Chip("Priority: " + c.priority, Red)] else []
  }

  function CategoryChip(c: Criteria): seq<Chip>
  {
    if c.category != All then [Chip("Category: " + c.category, Slate)] else []
  }

  /** The search chip shows whenever the text is non-empty (white space included). */
  function SearchChip(c: Criteria): seq<Chip>
  {
    if c.search != "" then [Chip("Search: \"" + c.search + "\"", Green)] else []
  }

  /** `activeFilters`. */
  function ActiveFilters(c: Criteria): (r: seq<Chip>)
    ensures |r| <= 4
  {
    StatusChip(c) + PriorityChip(c) + CategoryChip(c) + SearchChip(c)
  }

  /** Where the chip at position `i` comes from: its tone tells which
      criterion's chip it is. */
  lemma {:induction false} ChipOrigin(c: Criteria, i: int)
    requires 0 <= i < |ActiveFilters(c)|
    ensures var r, a, b, d := ActiveFilters(c), StatusChip(c), PriorityChip(c), CategoryChip(c);
      && (r[i].tone == Blue ==> i < |a| && r[i] == a[i])
      && (r[i].tone == Red ==> |a| <= i < |a| + |b| && r[i] == b[i - |a|])
      && (r[i].tone == Slate ==> |a| + |b| <= i < |a| + |b| + |d| && r[i] == d[i - |a| - |b|])
      && (r[i].tone == Green ==> |a| + |b| + |d| <= i && r[i] == SearchChip(c)[i - |a| - |b| - |d|])
  {
    var a, b, d, e := StatusChip(c), PriorityChip(c), CategoryChip(c), SearchChip(c);
    assert ActiveFilters(c) == a + b + d + e;
  }

  /** The chips always come in the order status, priority, category, search. */
  lemma {:induction false} ActiveFiltersOrder(c: Criteria)
    ensures var r := ActiveFilters(c);
      forall i, j :: 0 <= i < j < |r| ==> ToneRank(r[i].tone) < ToneRank(r[j].tone)
  {
    var r := ActiveFilters(c);
    forall i, j | 0 <= i < j < |r| ensures ToneRank(r[i].tone) < ToneRank(r[j].tone) {
      ChipOrigin(c, i);
      ChipOrigin(c, j);
    }
  }

  /** There is a chip for a criterion exactly when it is off its default, and it
      shows that criterion's value. */
  lemma {:induction false} ActiveFiltersSpec(c: Criteria)
    ensures var r := ActiveFilters(c);
      && ((exists i :: 0 <= i < |r| && r[i].tone == Blue) <==> c.status != All)
      && ((exists i :: 0 <= i < |r| && r[i].tone == Red) <==> c.priority != All)
      && ((exists i :: 0 <= i < |r| && r[i].tone == Slate) <==> c.category != All)
      && ((exists i :: 0 <= i < |r| && r[i].tone == Green) <==> c.search != "")
      && (forall i :: 0 <= i < |r| && r[i].tone == Blue ==> r[i].text == "Status: " + c.status)
      && (forall i :: 0 <= i < |r| && r[i].tone == Red ==> r[i].text == "Priority: " + c.priority)
      && (forall i :: 0 <= i < |r| && r[i].tone == Slate ==> r[i].text == "Category: " + c.category)
      && (forall i :: 0 <= i < |r| && r[i].tone == Green ==> r[i].text == "Search: \"" + c.search + "\"")
  {
    var a, b, d, e := StatusChip(c), PriorityChip(c), CategoryChip(c), SearchChip(c);
    var r := ActiveFilters(c);
    assert r == a + b + d + e;
    forall i | 0 <= i < |r| ensures
      && (r[i].tone == Blue ==> i < |a| && r[i] == a[i])
      && (r[i].tone == Red ==> |a| <= i < |a| + |b| && r[i] == b[i - |a|])
      && (r[i].tone == Slate ==> |a| + |b| <= i < |a| + |b| + |d| && r[i] == d[i - |a| - |b|])
      && (r[i].tone == Green ==> |a| + |b| + |d| <= i && r[i] == e[i - |a| - |b| - |d|])
    {
      ChipOrigin(c, i);
    }
    if c.status != All { assert r[0] == a[0]; }
    if c.priority != All { assert r[|a|] == b[0]; }
    if c.category != All { assert r[|a| + |b|] == d[0]; }
    if c.search != "" { assert r[|a| + |b| + |d|] == e[0]; }
  }

  /** "No active filters" is shown exactly for the default criteria. */
  lemma NoChipsIffDefault(c: Criteria)
    ensures ActiveFilters(c) == [] <==> c == NoCriteria
  {
  }

  // ---------------------------------------------------------------------------
  // Time ago

  const HourMs := 3600000

  datatype Age = JustNow | HoursAgo(hours: nat) | DaysAgo(days: nat)

  /** The bucket for a ticket created `elapsed` milliseconds ago (negative for a
      date in the future): compare the floor of the hours with 1 and 24. */
  function AgeOf(elapsed: int): Age
  {
    var h := elapsed / HourMs;
    if h < 1 then JustNow else if h < 24 then HoursAgo(h) else DaysAgo(h / 24)
  }

  /** `getTimeAgo`: "Just now" under an hour (or in the future); otherwise the
      whole hours elapsed, 1 to 23, as "{h}h ago", and from a day on the whole
      days elapsed as "{d}d ago". */
  function TimeAgo(now: int, createdAt: int): (r: string)
    ensures now - createdAt < HourMs ==> r == "Just now"
    ensures HourMs <= now - createdAt < 24 * HourMs ==>
      exists h: nat :: (1 <= h < 24 && h * HourMs <= now - createdAt < (h + 1) * HourMs
        && r == NatToString(h) + "h ago")
    ensures now - createdAt >= 24 * HourMs ==>
      exists d: nat :: (d >= 1 && d * 24 * HourMs <= now - createdAt < (d + 1) * 24 * HourMs
        && r == NatToString(d) + "d ago")
  {
    AgeBounds(now - createdAt);
    match AgeOf(now - createdAt)
    case JustNow => "Just now"
    case HoursAgo(h) => NatToString(h) + "h ago"
    case DaysAgo(d) => NatToString(d) + "d ago"
  }

  /** The buckets: under an hour (or in the future) is "Just now"; "{h}h ago" means
      at least h and under h + 1 whole hours, 1 <= h < 24; "{d}d ago" means at least
      d and under d + 1 whole days, d >= 1. */
  lemma {:induction false} AgeBounds(elapsed: int)
    ensures AgeOf(elapsed) == JustNow <==> elapsed < HourMs
    ensures AgeOf(elapsed).HoursAgo? ==>
      var h := AgeOf(elapsed).hours;
      1 <= h < 24 && h * HourMs <= elapsed < (h + 1) * HourMs
    ensures AgeOf(elapsed).DaysAgo? ==>
      var d := AgeOf(elapsed).days;
      d >= 1 && d * 24 * HourMs <= elapsed < (d + 1) * 24 * HourMs
  {
    var h := elapsed / HourMs;
    assert h * HourMs <= elapsed < (h + 1) * HourMs;
    if h >= 24 {
      var d := h / 24;
      assert d * 24 <= h < (d + 1) * 24;
      assert d * 24 * HourMs <= h * HourMs;
      assert (h + 1) * HourMs <= (d + 1) * 24 * HourMs;
    }
  }

  // ---------------------------------------------------------------------------
  // Assignee initials

  /** `part.charAt(0)` for each part, joined with ''. */
  function FirstChars(parts: seq<string>): (r: string)
    ensures |r| <= |parts|
  {
    if parts == [] then []
    else (if parts[0] == [] then [] else [parts[0][0]]) + FirstChars(parts[1..])
  }

  /** Each character of `FirstChars(parts)` is the first character of a part. */
  lemma {:induction false} FirstCharsFrom(parts: seq<string>, i: nat)
    requires i < |FirstChars(parts)|
    ensures exists k :: 0 <= k < |parts| && parts[k] != [] && FirstChars(parts)[i] == parts[k][0]
  {
    var r := FirstChars(parts);
    if parts[0] != [] && i == 0 {
      assert r[0] == parts[0][0];
    } else {
      var j := if parts[0] == [] then i else i - 1;
      var rest := FirstChars(parts[1..]);
      assert r[i] == rest[j];
      FirstCharsFrom(parts[1..], j);
      var k :| 0 <= k < |parts[1..]| && parts[1..][k] != [] && rest[j] == parts[1..][k][0];
      assert parts[k + 1] == parts[1..][k];
    }
  }

  predicate NonEmpty(part: string)
  {
    part != []
  }

  /** `FirstChars` is one character for each non-empty part, its first, in order;
      the empty parts (`charAt(0)` is '') add nothing. */
  lemma {:induction false} FirstCharsAreHeads(parts: seq<string>)
    ensures |FirstChars(parts)| == |Filter(parts, NonEmpty)|
    ensures forall i :: 0 <= i < |FirstChars(parts)| ==>
      Filter(parts, NonEmpty)[i] != [] && FirstChars(parts)[i] == Filter(parts, NonEmpty)[i][0]
  {
    if parts != [] {
      FirstCharsAreHeads(parts[1..]);
      var rest := FirstChars(parts[1..]);
      var kept := Filter(parts[1..], NonEmpty);
      if parts[0] != [] {
        assert FirstChars(parts) == [parts[0][0]] + rest;
        assert Filter(parts, NonEmpty) == [parts[0]] + kept;
      } else {
        assert FirstChars(parts) == rest;
        assert Filter(parts, NonEmpty) == kept;
      }
    }
  }

  /** `name.split(' ').map(part => part.charAt(0)).join('').slice(0, 2)`: with the
      empty parts (from leading, trailing or doubled spaces) dropped, the first
      characters of the first two words, or of as many words as there are. */
  function Initials(name: string): (r: string)
    ensures var words := Filter(Split(name, ' '), NonEmpty);
      && |r| == (if |words| < 2 then |words| else 2)
      && forall i :: 0 <= i < |r| ==> words[i] != [] && r[i] == words[i][0]
  {
    var firsts := FirstChars(Split(name, ' '));
    FirstCharsAreHeads(Split(name, ' '));
    if |firsts| <= 2 then firsts else firsts[..2]
  }

  /** Every character of a split part is a character of the string. */
  lemma {:induction false} SplitPartsFromString(s: string, sep: char)
    ensures forall k, i :: 0 <= k < |Split(s, sep)| && 0 <= i < |Split(s, sep)[k]| ==> Split(s, sep)[k][i] in s
    decreases |s|
  {
    if s != [] {
      SplitPartsFromString(s[1..], sep);
      var rest := Split(s[1..], sep);
      var parts := Split(s, sep);
      forall k, i | 0 <= k < |parts| && 0 <= i < |parts[k]| ensures parts[k][i] in s {
        if s[0] == sep {
          assert parts[k] == ([[]] + rest)[k];
          assert rest[k - 1][i] in s[1..];
        } else if k == 0 {
          if i > 0 {
            assert parts[0][i] == rest[0][i - 1];
            assert rest[0][i - 1] in s[1..];
          }
        } else {
          assert parts[k] == rest[k];
          assert rest[k][i] in s[1..];
        }
      }
    }
  }

  /** The badge shows at most two characters, each the first letter of a word of
      the name (so never a space), and a name that starts with a letter shows it first. */
  lemma {:induction false} InitialsSpec(name: string)
    ensures var r := Initials(name);
      && |r| <= 2
      && (forall i :: 0 <= i < |r| ==> r[i] in name && r[i] != ' ')
      && (name != [] && name[0] != ' ' ==> r != [] && r[0] == name[0])
  {
    var parts := Split(name, ' ');
    var firsts := FirstChars(parts);
    var r := Initials(name);
    SplitPartsFromString(name, ' ');
    forall i | 0 <= i < |r| ensures r[i] in name && r[i] != ' ' {
      assert r[i] == firsts[i];
      FirstCharsFrom(parts, i);
      var k :| 0 <= k < |parts| && parts[k] != [] && firsts[i] == parts[k][0];
      assert parts[k][0] in name;
    }
    if name != [] && name[0] != ' ' {
      SplitFirstPart(name, ' ');
      assert parts[0] != [] && parts[0][0] == name[0];
      assert firsts[0] == name[0];
      assert r[0] == firsts[0];
    }
  }

  /** The first part of a string that does not start with the separator starts
      with the string's first character. */
  lemma {:induction false} SplitFirstPart(s: string, sep: char)
    requires s != [] && s[0] != sep
    ensures Split(s, sep)[0] != [] && Split(s, sep)[0][0] == s[0]
  {
  }

  /** The initials badge is drawn only for a truthy assignee. */
  function InitialsBadge(assignedTo: Option<string>): (r: Option<string>)
    ensures r.Some? <==> Present(assignedTo)
    ensures r.Some? ==> r.value == Initials(assignedTo.value)
  {
    if Present(assignedTo) then Some(Initials(assignedTo.value)) else None
  }

  // ---------------------------------------------------------------------------
  // The page's filter state

  class TicketFilters {
    var searchTerm: string
    var statusFilter: string
    var priorityFilter: string
    var categoryFilter: string

    function Current(): Criteria
      reads this
    {
      Criteria(searchTerm, statusFilter, priorityFilter, categoryFilter)
    }

    constructor ()
      ensures Current() == NoCriteria
    {
      searchTerm := "";
      statusFilter := All;
      priorityFilter := All;
      categoryFilter := All;
    }

    method TypeSearch(text: string)
      modifies this
      ensures Current() == old(Current()).(search := text)
    {
      searchTerm := text;
    }

    /** A status button (one of 'all' and the five statuses) or a status card. */
    method SelectStatus(option: string)
      modifies this
      ensures Current() == old(Current()).(status := option)
    {
      statusFilter := option;
    }

    method SelectPriority(option: string)
      modifies this
      ensures Current() == old(Current()).(priority := option)
    {
      priorityFilter := option;
    }

    /** The "All" category button or one of the category buttons. */
    method SelectCategory(option: string)
      modifies this
      ensures Current() == old(Current()).(category := option)
    {
      categoryFilter := option;
    }

    /** The Total card: status, priority and category back to 'all'; the search stays. */
    method TotalCard()
      modifies this
      ensures Current() == NoCriteria.(search := old(searchTerm))
    {
      statusFilter := All;
      priorityFilter := All;
      categoryFilter := All;
    }

    /** A status card: shows only tickets of that status. */
    method StatusCard(s: TicketStatus)
      modifies this
      ensures Current() == old(Current()).(status := StatusLabel(s))
    {
      statusFilter := StatusLabel(s);
    }

    /** Clear Filters: all four criteria back to their defaults. */
    method ClearFilters()
      modifies this
      ensures Current() == NoCriteria
    {
      statusFilter := All;
      priorityFilter := All;
      categoryFilter := All;
      searchTerm := "";
    }
  }

  /** After Clear Filters the whole list shows and no chip is left; after the
      Total card only the search can still narrow the list. */
  lemma {:induction false} ResetsWiden(tickets: seq<Ticket>, search: string, t: Ticket)
    ensures FilteredTickets(tickets, NoCriteria) == tickets && ActiveFilters(NoCriteria) == []
    ensures Matches(NoCriteria.(search := search), t) <==> MatchesSearch(t, search)
  {
    NoCriteriaShowsAll(tickets);
  }

  /** A status card filters to exactly the tickets it counts, when no other
      criterion is set. */
  lemma {:induction false} StatusCardShowsItsCount(tickets: seq<Ticket>, s: TicketStatus)
    ensures |FilteredTickets(tickets, NoCriteria.(status := StatusLabel(s)))| == StatusCount(tickets, s)
  {
    var c := NoCriteria.(status := StatusLabel(s));
    LabelsInjective();
    forall i | 0 <= i < |tickets| ensures Matches(c, tickets[i]) == (tickets[i].status == s) {
      ContainsIgnoreCaseEmpty(tickets[i].title);
    }
    FilterCongruent(tickets, t => Matches(c, t), (t: Ticket) => t.status == s);
  }
}
