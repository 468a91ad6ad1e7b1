/** Which profiles ts/routineProfileRefresh.preload.ts fetches next: the stalest that may be fetched. */
module ProfileRefresh {
  import opened Wrappers

  datatype Conversation = Conversation(
    id: string,
    direct: bool,
    unregisteredAndStale: bool,
    serviceId: Option<string>,
    profileLastFetchedAt: Option<int>,
    credentialExpired: bool)

  const MaxAgeToBeConsideredRecentlyRefreshed := 3 * 24 * 60 * 60 * 1000
  const MaxConversationsToRefresh := 50

  /** The sort key; never fetched counts as fetched at zero. */
  function FetchedAt(c: Conversation): int { if c.profileLastFetchedAt.Some? then c.profileLastFetchedAt.value else 0 }

  predicate HasRefreshedProfileRecently(c: Conversation, now: int) {
    c.profileLastFetchedAt.Some? && c.profileLastFetchedAt.value + MaxAgeToBeConsideredRecentlyRefreshed > now
  }

  /** The filter before the sort, and the choice made after it. */
  predicate Considered(c: Conversation) { c.direct && !c.unregisteredAndStale && c.serviceId.Some? }

  predicate Yielded(c: Conversation, ours: string, now: int) {
    if c.id == ours then c.credentialExpired else !HasRefreshedProfileRecently(c, now)
  }

  predicate Eligible(c: Conversation, ours: string, now: int) { Considered(c) && Yielded(c, ours, now) }

  function IsConsidered(): Conversation -> bool { c => Considered(c) }
  function IsYielded(ours: string, now: int): Conversation -> bool { c => Yielded(c, ours, now) }
  function IsEligible(ours: string, now: int): Conversation -> bool { c => Eligible(c, ours, now) }

  function Filter(s: seq<Conversation>, p: Conversation -> bool): seq<Conversation> {
    if s == [] then [] else (if p(s[0]) then [s[0]] else []) + Filter(s[1..], p)
  }

  function Insert(c: Conversation, s: seq<Conversation>): seq<Conversation> {
    if s == [] || FetchedAt(c) <= FetchedAt(s[0]) then [c] + s else [s[0]] + Insert(c, s[1..])
  }

  /** A stable sort by the time of the last fetch. */
  function SortBy(s: seq<Conversation>): seq<Conversation> {
    if s == [] then [] else Insert(s[0], SortBy(s[1..]))
  }

  /** `getFilteredConversations`. */
  function GetFilteredConversations(s: seq<Conversation>, ours: string, now: int): seq<Conversation> {
    Filter(SortBy(Filter(s, IsConsidered())), IsYielded(ours, now))
  }

  /** `getConversationsToRefresh`. */
  function GetConversationsToRefresh(s: seq<Conversation>, ours: string, now: int): seq<Conversation> {
    var filtered := GetFilteredConversations(s, ours, now);
    if |filtered| <= MaxConversationsToRefresh then filtered else filtered[..MaxConversationsToRefresh]
  }

  // ---------------------------------------------------------------- sorting

  predicate Sorted(s: seq<Conversation>) { forall i, j :: 0 <= i < j < |s| ==> FetchedAt(s[i]) <= FetchedAt(s[j]) }

  lemma {:induction false} InsertCounts(c: Conversation, s: seq<Conversation>)
    ensures multiset(Insert(c, s)) == multiset(s) + multiset{c}
  {
    if s != [] && FetchedAt(c) > FetchedAt(s[0]) {
      InsertCounts(c, s[1..]);
      assert s == [s[0]] + s[1..];
    }
  }

  lemma {:induction false} InsertSorts(c: Conversation, s: seq<Conversation>)
    requires Sorted(s)
    ensures Sorted(Insert(c, s))
  {
    if s != [] && FetchedAt(c) > FetchedAt(s[0]) {
      var r := Insert(c, s[1..]);
      InsertSorts(c, s[1..]);
      InsertCounts(c, s[1..]);
      forall x | x in r
        ensures FetchedAt(s[0]) <= FetchedAt(x)
      {
        assert x in multiset(r);
        assert x != c ==> x in s[1..];
      }
    }
  }

  lemma {:induction false} SortBySorts(s: seq<Conversation>)
    ensures Sorted(SortBy(s)) && multiset(SortBy(s)) == multiset(s)
  {
    if s != [] {
      SortBySorts(s[1..]);
      InsertSorts(s[0], SortBy(s[1..]));
      InsertCounts(s[0], SortBy(s[1..]));
      assert s == [s[0]] + s[1..];
    }
  }

  // ---------------------------------------------------------------- filtering

  lemma FilterFirst(x: Conversation, s: seq<Conversation>, p: Conversation -> bool)
    ensures Filter([x] + s, p) == if p(x) then [x] + Filter(s, p) else Filter(s, p)
  {}

  lemma InsertBefore(x: Conversation, s: seq<Conversation>, c: Conversation)
    requires FetchedAt(x) < FetchedAt(c)
    ensures Insert(c, [x] + s) == [x] + Insert(c, s)
  {}

  lemma {:induction false} FilterInsert(c: Conversation, s: seq<Conversation>, p: Conversation -> bool)
    requires Sorted(s)
    ensures Filter(Insert(c, s), p) == if p(c) then Insert(c, Filter(s, p)) else Filter(s, p)
  {
    if s == [] || FetchedAt(c) <= FetchedAt(s[0]) {
      FilterFirst(c, s, p);
      FilterKeepsBound(s, p, FetchedAt(c));
    } else {
      var x, t := s[0], s[1..];
      assert s == [x] + t;
      FilterInsert(c, t, p);
      InsertBefore(x, t, c);
      FilterFirst(x, Insert(c, t), p);
      FilterFirst(x, t, p);
      if p(x) { InsertBefore(x, Filter(t, p), c); }
    }
  }

  lemma SortedTail(x: Conversation, s: seq<Conversation>)
    requires Sorted([x] + s)
    ensures Sorted(s) && (s == [] || FetchedAt(x) <= FetchedAt(s[0]))
  {
    var all := [x] + s;
    assert all[0] == x && forall i :: 0 <= i < |s| ==> s[i] == all[i + 1];
    if s != [] { assert all[1] == s[0]; }
  }

  lemma {:induction false} FilterKeepsBound(s: seq<Conversation>, p: Conversation -> bool, bound: int)
    requires Sorted(s) && (s == [] || bound <= FetchedAt(s[0]))
    ensures Filter(s, p) == [] || bound <= FetchedAt(Filter(s, p)[0])
  {
    if s != [] {
      var x, t := s[0], s[1..];
      assert s == [x] + t;
      FilterFirst(x, t, p);
      SortedTail(x, t);
      FilterKeepsBound(t, p, bound);
    }
  }

  /** Filtering after the sort is sorting what passes the filter. */
  lemma {:induction false} FilterSortBy(s: seq<Conversation>, p: Conversation -> bool)
    ensures Filter(SortBy(s), p) == SortBy(Filter(s, p))
  {
    if s != [] {
      var x, t := s[0], s[1..];
      assert s == [x] + t;
      FilterSortBy(t, p);
      SortBySorts(t);
      FilterInsert(x, SortBy(t), p);
      FilterFirst(x, t, p);
      if p(x) { assert ([x] + Filter(t, p))[1..] == Filter(t, p); }
    }
  }

  lemma {:induction false} FilterTwice(s: seq<Conversation>, ours: string, now: int)
    ensures Filter(Filter(s, IsConsidered()), IsYielded(ours, now)) == Filter(s, IsEligible(ours, now))
  {
    if s != [] {
      var x, t := s[0], s[1..];
      assert s == [x] + t;
      FilterTwice(t, ours, now);
      FilterFirst(x, t, IsConsidered());
      FilterFirst(x, Filter(t, IsConsidered()), IsYielded(ours, now));
      FilterFirst(x, t, IsEligible(ours, now));
    }
  }

  lemma {:induction false} FilterExact(s: seq<Conversation>, p: Conversation -> bool, c: Conversation)
    ensures multiset(Filter(s, p))[c] == if p(c) then multiset(s)[c] else 0
  {
    if s != [] {
      FilterExact(s[1..], p, c);
      assert s == [s[0]] + s[1..];
    }
  }

  // ---------------------------------------------------------------- the choice

  /** Our own profile once its credential has expired, another one if it was not fetched for three days. */
  predicate MayBeFetched(c: Conversation, ours: string, now: int) {
    && c.direct && !c.unregisteredAndStale && c.serviceId.Some?
    && (c.id == ours ==> c.credentialExpired)
    && (c.id != ours && c.profileLastFetchedAt.Some? ==> now - c.profileLastFetchedAt.value >= 259_200_000)
  }

  /** Was fetched no later; never is the time zero. */
  predicate NoLater(c: Conversation, d: Conversation) {
    match (c.profileLastFetchedAt, d.profileLastFetchedAt)
    case (Some(t), Some(u)) => t <= u
    case (Some(t), None) => t <= 0
    case (None, Some(u)) => 0 <= u
    case (None, None) => true
  }

  /**
   The choice is the beginning of the eligible conversations sorted by their last fetch: as many as
   allowed, each of them eligible, and none left out that was fetched earlier.
   */
  lemma StalestFirst(s: seq<Conversation>, ours: string, now: int) returns (rest: seq<Conversation>)
    ensures
      var chosen := GetConversationsToRefresh(s, ours, now);
      var all := chosen + rest;
      && (forall c :: multiset(all)[c] == if MayBeFetched(c, ours, now) then multiset(s)[c] else 0)
      && |chosen| == (if |all| < 50 then |all| else 50)
      && (forall i, j :: 0 <= i < j < |all| ==> NoLater(all[i], all[j]))
      && all == SortBy(Filter(s, IsEligible(ours, now)))
  {
    var filtered := GetFilteredConversations(s, ours, now);
    var chosen := GetConversationsToRefresh(s, ours, now);
    FilteredIsSorted(s, ours, now);
    rest := filtered[|chosen|..];
    assert chosen + rest == filtered;
    SortedNoLater(filtered);
    forall c
      ensures multiset(filtered)[c] == if MayBeFetched(c, ours, now) then multiset(s)[c] else 0
    {
      EligibleIff(c, ours, now);
    }
  }

  lemma EligibleIff(c: Conversation, ours: string, now: int)
    ensures Eligible(c, ours, now) <==> MayBeFetched(c, ours, now)
  {}

  lemma SortedNoLater(s: seq<Conversation>)
    requires Sorted(s)
    ensures forall i, j :: 0 <= i < j < |s| ==> NoLater(s[i], s[j])
  {
    forall i, j | 0 <= i < j < |s|
      ensures NoLater(s[i], s[j])
    {
      assert FetchedAt(s[i]) <= FetchedAt(s[j]);
    }
  }

  /** All eligible conversations and no other are yielded, in order. */
  lemma FilteredIsSorted(s: seq<Conversation>, ours: string, now: int)
    ensures
      var filtered := GetFilteredConversations(s, ours, now);
      var eligible := Filter(s, IsEligible(ours, now));
      && filtered == SortBy(eligible) && Sorted(filtered) && multiset(filtered) == multiset(eligible)
      && |filtered| == |eligible|
      && forall c :: multiset(filtered)[c] == if Eligible(c, ours, now) then multiset(s)[c] else 0
  {
    var eligible := Filter(s, IsEligible(ours, now));
    FilterSortBy(Filter(s, IsConsidered()), IsYielded(ours, now));
    FilterTwice(s, ours, now);
    SortBySorts(eligible);
    assert |multiset(SortBy(eligible))| == |multiset(eligible)|;
    forall c
      ensures multiset(eligible)[c] == if Eligible(c, ours, now) then multiset(s)[c] else 0
    {
      FilterExact(s, IsEligible(ours, now), c);
    }
  }
}
