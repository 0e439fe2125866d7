/** Emptying a memory queue by repeated dequeues is a stable sort by priority. */
module DrainOrder {
  import opened MemoryStorage

  /** The entries that repeated dequeues at one instant hand out, in order. */
  function Drain(entries: seq<Entry>, now: int): (out: seq<Entry>)
    decreases |entries|
  {
    var b := BestIndex(entries, now);
    if b < 0 then [] else [entries[b]] + Drain(RemoveAt(entries, b), now)
  }

  /** The entries they leave behind. */
  function Rest(entries: seq<Entry>, now: int): (rest: seq<Entry>)
    decreases |entries|
  {
    var b := BestIndex(entries, now);
    if b < 0 then entries else Rest(RemoveAt(entries, b), now)
  }

  /** The due entries of one priority, in queue order. */
  function DueAt(entries: seq<Entry>, now: int, priority: int): seq<Entry> {
    if entries == [] then []
    else
      (if Due(entries[0], now) && entries[0].priority == priority then [entries[0]] else [])
      + DueAt(entries[1..], now, priority)
  }

  function NotDue(entries: seq<Entry>, now: int): seq<Entry> {
    if entries == [] then []
    else (if Due(entries[0], now) then [] else [entries[0]]) + NotDue(entries[1..], now)
  }

  ghost predicate Descending(s: seq<Entry>) {
    forall i, k :: 0 <= i < k < |s| ==> s[i].priority >= s[k].priority
  }

  lemma DueAtCons(e: Entry, s: seq<Entry>, now: int, p: int)
    ensures DueAt([e] + s, now, p)
         == (if Due(e, now) && e.priority == p then [e] else []) + DueAt(s, now, p)
    ensures NotDue([e] + s, now) == (if Due(e, now) then [] else [e]) + NotDue(s, now)
  {
    assert ([e] + s)[1..] == s;
  }

  lemma {:induction false} DueAtAppend(a: seq<Entry>, b: seq<Entry>, now: int, p: int)
    ensures DueAt(a + b, now, p) == DueAt(a, now, p) + DueAt(b, now, p)
    ensures NotDue(a + b, now) == NotDue(a, now) + NotDue(b, now)
    decreases |a|
  {
    if a == [] {
      assert a + b == b;
    } else {
      var e, rest := a[0], a[1..];
      DueAtAppend(rest, b, now, p);
      assert a == [e] + rest && a + b == [e] + (rest + b);
      DueAtCons(e, rest, now, p);
      DueAtCons(e, rest + b, now, p);
    }
  }

  lemma {:induction false} DueAtEmpty(a: seq<Entry>, now: int, p: int)
    requires forall k :: 0 <= k < |a| ==> !(Due(a[k], now) && a[k].priority == p)
    ensures DueAt(a, now, p) == []
    decreases |a|
  {
    if a != [] {
      DueAtEmpty(a[1..], now, p);
    }
  }

  /** Taking the pick takes the head of its own priority's list and touches no other list. */
  lemma PickHeadsItsPriority(entries: seq<Entry>, now: int, p: int)
    requires HasDue(entries, now)
    ensures var b := BestIndex(entries, now);
      && DueAt(entries, now, p)
           == (if entries[b].priority == p then [entries[b]] else []) + DueAt(RemoveAt(entries, b), now, p)
      && NotDue(RemoveAt(entries, b), now) == NotDue(entries, now)
  {
    var b := BestIndex(entries, now);
    assert entries == entries[..b] + ([entries[b]] + entries[b + 1..]);
    MiddleLists(entries[..b], entries[b], entries[b + 1..], now, p);
  }

  /** A due entry behind none of its priority heads its priority's list. */
  lemma MiddleLists(before: seq<Entry>, e: Entry, after: seq<Entry>, now: int, p: int)
    requires Due(e, now)
    requires forall k :: 0 <= k < |before| && Due(before[k], now) ==> before[k].priority != e.priority
    ensures DueAt(before + ([e] + after), now, p)
         == (if e.priority == p then [e] else []) + DueAt(before + after, now, p)
    ensures NotDue(before + ([e] + after), now) == NotDue(before + after, now)
  {
    DueAtAppend(before, [e] + after, now, p);
    DueAtAppend(before, after, now, p);
    DueAtCons(e, after, now, p);
    if e.priority == p {
      DueAtEmpty(before, now, p);
    }
  }

  /** Drained first, the pick completes every list that the rest was drained into. */
  lemma PickThenTail(entries: seq<Entry>, tail: seq<Entry>, now: int, p: int)
    requires HasDue(entries, now)
    requires DueAt(tail, now, p) == DueAt(RemoveAt(entries, BestIndex(entries, now)), now, p)
    ensures DueAt([entries[BestIndex(entries, now)]] + tail, now, p) == DueAt(entries, now, p)
  {
    PickHeadsItsPriority(entries, now, p);
    DueAtCons(entries[BestIndex(entries, now)], tail, now, p);
  }

  lemma {:induction false} DrainKeepsLists(entries: seq<Entry>, now: int, p: int)
    ensures DueAt(Drain(entries, now), now, p) == DueAt(entries, now, p)
    decreases |entries|
  {
    var b := BestIndex(entries, now);
    if b < 0 {
      DueAtEmpty(entries, now, p);
    } else {
      DrainKeepsLists(RemoveAt(entries, b), now, p);
      PickThenTail(entries, Drain(RemoveAt(entries, b), now), now, p);
    }
  }

  lemma {:induction false} RestIsNotDue(entries: seq<Entry>, now: int)
    ensures Rest(entries, now) == NotDue(entries, now)
    decreases |entries|
  {
    var b := BestIndex(entries, now);
    if b < 0 {
      NothingDue(entries, now);
    } else {
      RestIsNotDue(RemoveAt(entries, b), now);
      PickHeadsItsPriority(entries, now, 0);
    }
  }

  /** Stability: within each priority the entries come out in queue order; what was not due stays,
      in order. */
  lemma DrainIsStable(entries: seq<Entry>, now: int, p: int)
    ensures DueAt(Drain(entries, now), now, p) == DueAt(entries, now, p)
    ensures Rest(entries, now) == NotDue(entries, now)
  {
    DrainKeepsLists(entries, now, p);
    RestIsNotDue(entries, now);
  }

  lemma {:induction false} NothingDue(a: seq<Entry>, now: int)
    requires forall k :: 0 <= k < |a| ==> !Due(a[k], now)
    ensures NotDue(a, now) == a
    decreases |a|
  {
    if a != [] {
      NothingDue(a[1..], now);
    }
  }

  /** Every drained entry was due and in the queue. */
  lemma {:induction false} DrainedWereDue(entries: seq<Entry>, now: int)
    ensures forall e :: e in Drain(entries, now) ==> e in entries && Due(e, now)
    decreases |entries|
  {
    var b := BestIndex(entries, now);
    if b >= 0 {
      DrainedWereDue(RemoveAt(entries, b), now);
      assert forall e :: e in RemoveAt(entries, b) ==> e in entries;
    }
  }

  /** Order: priorities never rise along the drained sequence. */
  lemma {:induction false} DrainIsDescending(entries: seq<Entry>, now: int)
    ensures Descending(Drain(entries, now))
    decreases |entries|
  {
    var b := BestIndex(entries, now);
    if b >= 0 {
      var rest := RemoveAt(entries, b);
      DrainIsDescending(rest, now);
      DrainedWereDue(rest, now);
      var tail := Drain(rest, now);
      forall k | 0 <= k < |tail|
        ensures entries[b].priority >= tail[k].priority
      {
        assert tail[k] in rest;
        var i :| 0 <= i < |rest| && rest[i] == tail[k];
        assert rest[i] == entries[if i < b then i else i + 1];
      }
    }
  }

  /** Permutation: drained and left-behind entries together are the queue. */
  lemma {:induction false} DrainIsPermutation(entries: seq<Entry>, now: int)
    ensures multiset(Drain(entries, now)) + multiset(Rest(entries, now)) == multiset(entries)
    decreases |entries|
  {
    var b := BestIndex(entries, now);
    if b >= 0 {
      DrainIsPermutation(RemoveAt(entries, b), now);
      RemoveAtMultiset(entries, b);
    }
  }

  lemma RemoveAtMultiset(s: seq<Entry>, b: nat)
    requires b < |s|
    ensures multiset(s) == multiset{s[b]} + multiset(RemoveAt(s, b))
  {
    assert s == s[..b] + [s[b]] + s[b + 1..];
  }

  // ---- the reference: an ordinary stable insertion sort ----

  function Insert(e: Entry, s: seq<Entry>): seq<Entry> {
    if s == [] || e.priority >= s[0].priority then [e] + s else [s[0]] + Insert(e, s[1..])
  }

  function StableSort(entries: seq<Entry>, now: int): seq<Entry> {
    if entries == [] then []
    else if Due(entries[0], now) then Insert(entries[0], StableSort(entries[1..], now))
    else StableSort(entries[1..], now)
  }

  lemma {:induction false} InsertMembers(e: Entry, s: seq<Entry>)
    ensures forall x :: x in Insert(e, s) <==> x == e || x in s
    decreases |s|
  {
    if s != [] {
      InsertMembers(e, s[1..]);
      assert s == [s[0]] + s[1..];
    }
  }

  lemma {:induction false} InsertDescending(e: Entry, s: seq<Entry>)
    requires Descending(s)
    ensures Descending(Insert(e, s))
    decreases |s|
  {
    if s != [] && e.priority < s[0].priority {
      InsertDescending(e, s[1..]);
      InsertMembers(e, s[1..]);
      var t := Insert(e, s[1..]);
      assert forall k :: 0 <= k < |t| ==> t[k] in t;
    }
  }

  lemma {:induction false} InsertKeepsLists(e: Entry, s: seq<Entry>, now: int, p: int)
    requires Due(e, now) && Descending(s)
    ensures DueAt(Insert(e, s), now, p) == (if e.priority == p then [e] else []) + DueAt(s, now, p)
    decreases |s|
  {
    if s == [] || e.priority >= s[0].priority {
      DueAtCons(e, s, now, p);
    } else {
      InsertKeepsLists(e, s[1..], now, p);
      DueAtCons(s[0], Insert(e, s[1..]), now, p);
      if e.priority == p {
        LowerLists(s, now, p, e);
      }
    }
  }

  /** Where the head outranks e, e's list does not start with it. */
  lemma LowerLists(s: seq<Entry>, now: int, p: int, e: Entry)
    requires s != [] && s[0].priority != p
    ensures DueAt(s, now, p) == DueAt(s[1..], now, p)
  {
  }

  lemma {:induction false} StableSortLists(entries: seq<Entry>, now: int, p: int)
    ensures DueAt(StableSort(entries, now), now, p) == DueAt(entries, now, p)
    ensures Descending(StableSort(entries, now))
    ensures forall x :: x in StableSort(entries, now) ==> Due(x, now)
    decreases |entries|
  {
    if entries != [] {
      StableSortLists(entries[1..], now, p);
      if Due(entries[0], now) {
        var t := StableSort(entries[1..], now);
        InsertKeepsLists(entries[0], t, now, p);
        InsertDescending(entries[0], t);
        InsertMembers(entries[0], t);
      }
    }
  }

  lemma HeadListed(s: seq<Entry>, now: int)
    requires s != [] && Due(s[0], now)
    ensures |DueAt(s, now, s[0].priority)| > 0
  {
  }

  /** A descending sequence of due entries is determined by its per-priority lists. */
  lemma {:induction false} ListsDetermine(s: seq<Entry>, t: seq<Entry>, now: int)
    requires Descending(s) && Descending(t)
    requires forall x :: x in s ==> Due(x, now)
    requires forall x :: x in t ==> Due(x, now)
    requires forall p :: DueAt(s, now, p) == DueAt(t, now, p)
    ensures s == t
    decreases |s|
  {
    if s == [] {
      if t != [] {
        assert t[0] in t;
        HeadListed(t, now);
      }
    } else {
      assert s[0] in s;
      var q := s[0].priority;
      HeadsAgree(s, t, now);
      forall p
        ensures DueAt(s[1..], now, p) == DueAt(t[1..], now, p)
      {
        assert DueAt(s, now, p) == DueAt(t, now, p);
        var head := if Due(s[0], now) && s[0].priority == p then [s[0]] else [];
        assert DueAt(s, now, p)[|head|..] == DueAt(s[1..], now, p);
        assert DueAt(t, now, p)[|head|..] == DueAt(t[1..], now, p);
      }
      ListsDetermine(s[1..], t[1..], now);
      assert s == [s[0]] + s[1..] && t == [t[0]] + t[1..];
    }
  }

  lemma {:induction false} ListMember(s: seq<Entry>, now: int, p: int)
    ensures forall x :: x in DueAt(s, now, p) <==> x in s && Due(x, now) && x.priority == p
    decreases |s|
  {
    if s != [] {
      ListMember(s[1..], now, p);
      assert s == [s[0]] + s[1..];
    }
  }

  lemma HeadsAgree(s: seq<Entry>, t: seq<Entry>, now: int)
    requires s != [] && Descending(s) && Descending(t)
    requires forall x :: x in s ==> Due(x, now)
    requires forall x :: x in t ==> Due(x, now)
    requires forall p :: DueAt(s, now, p) == DueAt(t, now, p)
    ensures t != [] && t[0] == s[0]
  {
    var q := s[0].priority;
    assert s[0] in s;
    ListMember(s, now, q);
    ListMember(t, now, q);
    assert s[0] in DueAt(t, now, q);
    assert t[0] in t;
    ListMember(s, now, t[0].priority);
    ListMember(t, now, t[0].priority);
    assert t[0] in s;
    assert DueAt(s, now, q)[0] == s[0] && DueAt(t, now, t[0].priority)[0] == t[0];
  }

  /** Draining is the stable sort of the due entries. */
  lemma DrainIsStableSort(entries: seq<Entry>, now: int)
    ensures Drain(entries, now) == StableSort(entries, now)
  {
    DrainIsDescending(entries, now);
    DrainedWereDue(entries, now);
    StableSortLists(entries, now, 0);
    forall p
      ensures DueAt(Drain(entries, now), now, p) == DueAt(StableSort(entries, now), now, p)
    {
      DrainIsStable(entries, now, p);
      StableSortLists(entries, now, p);
    }
    ListsDetermine(Drain(entries, now), StableSort(entries, now), now);
  }

  // ---- the SQL backend's order as a reference ----

  /** ORDER BY priority DESC, scheduled_for ASC would let the row be first among the due ones. */
  ghost predicate SqlAllows(entries: seq<Entry>, now: int, b: nat)
    requires b < |entries|
  {
    Due(entries[b], now) && forall k :: 0 <= k < |entries| && Due(entries[k], now) ==>
      entries[k].priority < entries[b].priority
      || (entries[k].priority == entries[b].priority && entries[b].timestamp <= entries[k].timestamp)
  }

  /** Entries of one priority were appended in timestamp order. */
  ghost predicate AppendedInOrder(entries: seq<Entry>) {
    forall i, k :: 0 <= i < k < |entries| && entries[i].priority == entries[k].priority ==>
      entries[i].timestamp <= entries[k].timestamp
  }

  lemma PickIsSqlPick(entries: seq<Entry>, now: int)
    requires AppendedInOrder(entries) && HasDue(entries, now)
    ensures SqlAllows(entries, now, BestIndex(entries, now))
  {
  }

  lemma {:induction false} RemovalKeepsOrder(entries: seq<Entry>, b: nat)
    requires AppendedInOrder(entries) && b < |entries|
    ensures AppendedInOrder(RemoveAt(entries, b))
  {
    var rest := RemoveAt(entries, b);
    assert forall i :: 0 <= i < |rest| ==> rest[i] == entries[if i < b then i else i + 1];
  }

  /** Every pick of a drain at `now` is one the SQL order allows at that point. */
  ghost predicate DrainMatchesSql(entries: seq<Entry>, now: int)
    decreases |entries|
  {
    var b := BestIndex(entries, now);
    b >= 0 ==> SqlAllows(entries, now, b) && DrainMatchesSql(RemoveAt(entries, b), now)
  }

  lemma {:induction false} InOrderMatches(entries: seq<Entry>, now: int)
    requires AppendedInOrder(entries)
    ensures DrainMatchesSql(entries, now)
    decreases |entries|
  {
    var b := BestIndex(entries, now);
    if b >= 0 {
      PickIsSqlPick(entries, now);
      RemovalKeepsOrder(entries, b);
      InOrderMatches(RemoveAt(entries, b), now);
    }
  }

  /** Two entries appended against their timestamps are drained against them. */
  lemma {:induction false} OutOfOrderDiffers(entries: seq<Entry>, now: int, i: nat, k: nat)
    requires i < k < |entries| && entries[i].priority == entries[k].priority
    requires entries[k].timestamp < entries[i].timestamp <= now
    ensures !DrainMatchesSql(entries, now)
    decreases |entries|
  {
    var b := BestIndex(entries, now);
    assert Due(entries[i], now) && Due(entries[k], now);
    if b != i {
      var rest := RemoveAt(entries, b);
      assert forall x :: 0 <= x < |rest| ==> rest[x] == entries[if x < b then x else x + 1];
      OutOfOrderDiffers(rest, now, if i < b then i else i - 1, if k < b then k else k - 1);
    }
  }

  /** The memory queue and the SQL queue agree at every instant exactly when entries of one
      priority were appended in timestamp order. */
  lemma MatchesSqlIff(entries: seq<Entry>)
    ensures AppendedInOrder(entries) <==> forall now :: DrainMatchesSql(entries, now)
  {
    if AppendedInOrder(entries) {
      forall now
        ensures DrainMatchesSql(entries, now)
      {
        InOrderMatches(entries, now);
      }
    } else {
      var i, k :| 0 <= i < k < |entries| && entries[i].priority == entries[k].priority
        && entries[i].timestamp > entries[k].timestamp;
      OutOfOrderDiffers(entries, entries[i].timestamp, i, k);
    }
  }

  /** Out of that order the two backends differ: a retry appended with a long delay keeps its
      earlier position and is picked before a later entry that fell due first. */
  lemma PickCanMissSqlPick()
    ensures var entries := [Entry("retried", 5, 9), Entry("fresh", 5, 3)];
      BestIndex(entries, 10) == 0 && !SqlAllows(entries, 10, 0)
  {
    var entries := [Entry("retried", 5, 9), Entry("fresh", 5, 3)];
    PickUnique(entries, 10, 2, BestIndex(entries, 10), 0);
  }
}
