/** The results of the conflict check, from what each visit does to the list. */
module ConflictResult {
  import opened Wrappers
  import opened Lists
  import opened ContactBook
  import opened ContactMerge
  import opened ConflictRules
  import opened ConflictProofs

  /** Two conversations compete for an identifier or a group id. */
  ghost predicate Linked(kinds: Kinds, contacts: map<Id, Contact>, a: Id, b: Id)
    requires a in kinds && b in kinds && a in contacts && b in contacts
  {
    || Shares(contacts[a], contacts[b])
    || (GroupV2IdOf(kinds[a], contacts[a]).Some?
        && GroupV2IdOf(kinds[a], contacts[a]) == GroupV2IdOf(kinds[b], contacts[b]))
  }

  /**
   Visited after `d`, the conversation `c` wins: a contact with service id and phone number or neither, or
   a newer kind of group.
   */
  predicate Beats(kinds: Kinds, contacts: map<Id, Contact>, c: Id, d: Id)
    requires c in kinds && d in kinds && c in contacts
  {
    if kinds[c].Direct? then contacts[c].serviceId.Some? <==> contacts[c].e164.Some?
    else kinds[c].GroupV2? && !kinds[d].GroupV2?
  }

  /** Visited after `d`, it loses: a contact with a service id or a phone number alone, or no newer kind of group. */
  predicate Yields(kinds: Kinds, contacts: map<Id, Contact>, c: Id, d: Id)
    requires c in kinds && d in kinds && c in contacts
  {
    if kinds[c].Direct? then contacts[c].pni.None? && (contacts[c].serviceId.None? || contacts[c].e164.None?)
    else !(kinds[c].GroupV2? && !kinds[d].GroupV2?)
  }

  /** Contacts with service ids of their own that share none: at most a phone number stands between them. */
  predicate Apart(contacts: map<Id, Contact>, a: Id, b: Id)
    requires a in contacts && b in contacts
  {
    var (c, d) := (contacts[a], contacts[b]);
    c.serviceId.Some? && d.serviceId.Some? && !d.Holds(c.serviceId.value) && (c.pni.Some? ==> !d.Holds(c.pni.value))
  }

  /** Who may be combined into whom while `c` is visited. */
  ghost predicate Fair(st: State, kinds: Kinds, seen: set<Id>, c: Id, current: Id, obsolete: Id)
    requires Known(st, kinds) && c in kinds
  {
    || (current == c && obsolete in seen && obsolete in kinds && Linked(kinds, st.contacts, c, obsolete)
        && !Yields(kinds, st.contacts, c, obsolete) && !Apart(st.contacts, c, obsolete))
    || (obsolete == c && current in seen && current in kinds && Linked(kinds, st.contacts, c, current)
        && !Beats(kinds, st.contacts, c, current) && !Apart(st.contacts, c, current))
  }

  ghost predicate Combined(st: State, r: State, current: Id, obsolete: Id) {
    obsolete in st.list && r.list == Without(st.list, obsolete) && r.merges == st.merges + [Merge(current, obsolete)]
  }

  /** At most one conversation goes, and fairly. */
  ghost predicate Step(st: State, r: State, kinds: Kinds, seen: set<Id>, c: Id)
    requires Known(st, kinds) && c in kinds
  {
    || (r.list == st.list && r.merges == st.merges)
    || exists current, obsolete :: Fair(st, kinds, seen, c, current, obsolete) && Combined(st, r, current, obsolete)
  }

  lemma CombineStep(st: State, r: State, kinds: Kinds, seen: set<Id>, c: Id, current: Id, obsolete: Id)
    requires Known(st, kinds) && c in kinds && current in kinds && obsolete in kinds
    requires Fair(st, kinds, seen, c, current, obsolete)
    requires var u := Combine(st, kinds, current, obsolete); r.list == u.list && r.merges == u.merges
    ensures Step(st, r, kinds, seen, c)
  {}

  lemma ServiceIdStep(st: State, kinds: Kinds, seen: set<Id>, c: Id)
    requires Tracked(st, kinds, seen) && c in kinds && c !in seen
    ensures Step(st, CheckServiceId(st, kinds, c), kinds, seen, c)
  {
    var r := CheckServiceId(st, kinds, c);
    var v := st.contacts[c].serviceId;
    if v.Some? && v.value in st.byServiceId {
      var d := st.byServiceId[v.value];
      assert HoldsId(st, d, v.value) && Shares(st.contacts[c], st.contacts[d]);
      if st.contacts[c].e164.Some? {
        CombineStep(st, r, kinds, seen, c, c, d);
      } else {
        CombineStep(st, r, kinds, seen, c, d, c);
      }
    }
  }

  lemma PniStep(st: State, kinds: Kinds, seen: set<Id>, c: Id)
    requires Known(st, kinds) && OnlyDirect(kinds, st.contacts) && HalfKept(st, seen, c) && c in kinds && c !in seen
    ensures Step(st, CheckPni(st, kinds, c), kinds, seen, c)
  {
    var r := CheckPni(st, kinds, c);
    var v := st.contacts[c].pni;
    if v.Some? && v.value in st.byServiceId && st.byServiceId[v.value] != c {
      var d := st.byServiceId[v.value];
      assert HoldsId(st, d, v.value) && Shares(st.contacts[c], st.contacts[d]);
      CombineStep(st, r, kinds, seen, c, c, d);
    }
  }

  lemma PhoneStep(st: State, kinds: Kinds, seen: set<Id>, c: Id)
    requires Known(st, kinds) && OnlyDirect(kinds, st.contacts) && E164sSound(st, seen) && c in kinds && c !in seen
    ensures Step(st, CheckE164(st, kinds, c), kinds, seen, c)
    ensures forall x :: x in st.contacts && CheckE164(st, kinds, c).contacts[x] != st.contacts[x] ==>
              x in seen && x in kinds && Linked(kinds, st.contacts, c, x) && !Yields(kinds, st.contacts, c, x)
  {
    var r := CheckE164(st, kinds, c);
    var e := st.contacts[c].e164;
    if e.Some? && e.value in st.byE164 {
      var d := st.byE164[e.value];
      assert HoldsE164(st, d, e.value) && Shares(st.contacts[c], st.contacts[d]);
      if Dropping(st, c) { return; }
      if st.contacts[c].serviceId.Some? {
        CombineStep(st, r, kinds, seen, c, c, d);
      } else {
        CombineStep(st, r, kinds, seen, c, d, c);
      }
    }
  }

  lemma GroupStep(st: State, kinds: Kinds, seen: set<Id>, c: Id)
    requires Known(st, kinds) && GroupsSound(st, kinds, seen) && c in kinds && c !in seen && st.contacts[c].Bare()
    ensures Step(st, CheckGroup(st, kinds, c), kinds, seen, c)
  {
    var r := CheckGroup(st, kinds, c);
    var g := GroupV2IdOf(kinds[c], st.contacts[c]);
    if g.Some? && g.value in st.byGroupV2Id {
      var d := st.byGroupV2Id[g.value];
      assert GroupOf(st, kinds, d) == g;
      if kinds[c].GroupV2? && !kinds[d].GroupV2? {
        CombineStep(st, r, kinds, seen, c, c, d);
      } else {
        CombineStep(st, r, kinds, seen, c, d, c);
      }
    }
  }

  // ---------------------------------------------------------------- the list and the merges

  function Obsoletes(ms: seq<Merge>): seq<Id> {
    if ms == [] then [] else Obsoletes(ms[..|ms| - 1]) + [ms[|ms| - 1].obsolete]
  }

  /** Each conversation is still listed or was combined away, exactly once and never into itself. */
  ghost predicate Accounted(st: State, all: seq<Id>) {
    && multiset(st.list) + multiset(Obsoletes(st.merges)) == multiset(all)
    && forall m <- st.merges :: m.current != m.obsolete && m.current in all
  }

  /** What is still to be visited stands untouched at the front of the list. */
  ghost predicate Ahead(st: State, todo: seq<Id>, seen: set<Id>) {
    && NoDuplicates(st.list) && todo <= st.list
    && (forall x <- todo :: x !in seen)
  }

  lemma StepList(st: State, r: State, kinds: Kinds, seen: set<Id>, c: Id, todo: seq<Id>, all: seq<Id>)
    requires Known(st, kinds) && c in kinds && Step(st, r, kinds, seen, c) && c !in seen && c !in todo
    requires Ahead(st, todo, seen) && Accounted(st, all) && c in all && forall x <- seen :: x in all
    ensures Ahead(r, todo, seen) && Accounted(r, all)
  {
    if !(r.list == st.list && r.merges == st.merges) {
      var current, obsolete :| Fair(st, kinds, seen, c, current, obsolete) && Combined(st, r, current, obsolete);
      WithoutMember(st.list, obsolete);
      WithoutPrefix(st.list, todo, obsolete);
      CombinedAccounted(st, r, current, obsolete, all);
    }
  }

  lemma CombinedAccounted(st: State, r: State, current: Id, obsolete: Id, all: seq<Id>)
    requires Accounted(st, all) && Combined(st, r, current, obsolete) && NoDuplicates(st.list)
    requires current != obsolete && current in all
    ensures Accounted(r, all)
  {
    WithoutCount(st.list, obsolete);
    assert r.merges[..|r.merges| - 1] == st.merges;
    assert Obsoletes(r.merges) == Obsoletes(st.merges) + [obsolete];
  }

  /**
   Who is not removed while `c` is visited: those it yields to or stands apart from, and `c` itself if it
   beats its rivals.
   */
  ghost predicate Safe(st: State, kinds: Kinds, seen: set<Id>, c: Id, x: Id)
    requires Known(st, kinds) && c in kinds
  {
    if x == c then
      forall d :: d in seen && d in kinds && Linked(kinds, st.contacts, c, d) ==>
        Beats(kinds, st.contacts, c, d) || Apart(st.contacts, c, d)
    else
      x in kinds && (Linked(kinds, st.contacts, c, x) ==> Yields(kinds, st.contacts, c, x) || Apart(st.contacts, c, x))
  }

  lemma StepSafe(st: State, r: State, kinds: Kinds, seen: set<Id>, c: Id, x: Id)
    requires Known(st, kinds) && c in kinds && Step(st, r, kinds, seen, c) && c !in seen && NoDuplicates(st.list)
    requires x in st.list && Safe(st, kinds, seen, c, x)
    ensures x in r.list
  {
    if !(r.list == st.list && r.merges == st.merges) {
      var current, obsolete :| Fair(st, kinds, seen, c, current, obsolete) && Combined(st, r, current, obsolete);
      WithoutMember(st.list, obsolete);
    }
  }

  // ---------------------------------------------------------------- one visit

  /** The visit of a contact, phase by phase. */
  lemma VisitSteps(st: State, kinds: Kinds, seen: set<Id>, c: Id) returns (r1: State, r2: State)
    requires Tracked(st, kinds, seen) && c in kinds && c !in seen && kinds[c].Direct?
    ensures Step(st, r1, kinds, seen, c) && r1.contacts == st.contacts && Known(r1, kinds)
    ensures Step(r1, r2, kinds, seen, c) && r2.contacts == st.contacts && Known(r2, kinds)
    ensures Step(r2, Visit(st, kinds, c), kinds, seen, c)
    ensures forall x :: x in st.contacts && Visit(st, kinds, c).contacts[x] != st.contacts[x] ==>
              x in seen && x in kinds && Linked(kinds, st.contacts, c, x) && !Yields(kinds, st.contacts, c, x)
  {
    r1 := CheckServiceId(st, kinds, c);
    r2 := CheckPni(r1, kinds, c);
    assert Visit(st, kinds, c) == CheckE164(r2, kinds, c);
    ServiceIdPhase(st, kinds, seen, c);
    ServiceIdStep(st, kinds, seen, c);
    PniPhase(r1, kinds, seen, c);
    PniStep(r1, kinds, seen, c);
    PhoneStep(r2, kinds, seen, c);
  }

  lemma VisitGroupStep(st: State, kinds: Kinds, seen: set<Id>, c: Id)
    requires Tracked(st, kinds, seen) && c in kinds && c !in seen && !kinds[c].Direct?
    ensures Step(st, Visit(st, kinds, c), kinds, seen, c) && Visit(st, kinds, c).contacts == st.contacts
  {
    assert st.contacts[c].Bare();
    assert Visit(st, kinds, c) == CheckGroup(st, kinds, c);
    GroupStep(st, kinds, seen, c);
  }

  lemma VisitList(st: State, kinds: Kinds, seen: set<Id>, c: Id, todo: seq<Id>, all: seq<Id>)
    requires Tracked(st, kinds, seen) && c in kinds && c !in seen && c !in todo
    requires Ahead(st, todo, seen) && Accounted(st, all) && c in all && forall x <- seen :: x in all
    ensures Ahead(Visit(st, kinds, c), todo, seen) && Accounted(Visit(st, kinds, c), all)
  {
    var r := Visit(st, kinds, c);
    if kinds[c].Direct? {
      var r1, r2 := VisitSteps(st, kinds, seen, c);
      StepList(st, r1, kinds, seen, c, todo, all);
      StepList(r1, r2, kinds, seen, c, todo, all);
      StepList(r2, r, kinds, seen, c, todo, all);
    } else {
      VisitGroupStep(st, kinds, seen, c);
      StepList(st, r, kinds, seen, c, todo, all);
    }
  }

  lemma VisitSafe(st: State, kinds: Kinds, seen: set<Id>, c: Id, x: Id)
    requires Tracked(st, kinds, seen) && c in kinds && c !in seen
    requires x in st.list && x in kinds && Safe(st, kinds, seen, c, x)
    ensures x in Visit(st, kinds, c).list
    ensures x == c || (Linked(kinds, st.contacts, c, x) ==> Yields(kinds, st.contacts, c, x)) ==>
              Visit(st, kinds, c).contacts[x] == st.contacts[x]
  {
    var r := Visit(st, kinds, c);
    if kinds[c].Direct? {
      var r1, r2 := VisitSteps(st, kinds, seen, c);
      StepSafe(st, r1, kinds, seen, c, x);
      StepKeepsNoDuplicates(st, r1, kinds, seen, c);
      StepSafe(r1, r2, kinds, seen, c, x);
      StepKeepsNoDuplicates(r1, r2, kinds, seen, c);
      StepSafe(r2, r, kinds, seen, c, x);
    } else {
      VisitGroupStep(st, kinds, seen, c);
      StepSafe(st, r, kinds, seen, c, x);
    }
  }

  lemma StepKeepsNoDuplicates(st: State, r: State, kinds: Kinds, seen: set<Id>, c: Id)
    requires Known(st, kinds) && c in kinds && Step(st, r, kinds, seen, c) && NoDuplicates(st.list)
    ensures NoDuplicates(r.list)
  {
    if !(r.list == st.list && r.merges == st.merges) {
      var current, obsolete :| Fair(st, kinds, seen, c, current, obsolete) && Combined(st, r, current, obsolete);
      WithoutMember(st.list, obsolete);
    }
  }

  // ---------------------------------------------------------------- the whole loop

  /** What the check may assume of the conversations it starts with. */
  ghost predicate Checkable(list: seq<Id>, kinds: Kinds, contacts: map<Id, Contact>) {
    && NoDuplicates(list) && contacts.Keys == kinds.Keys && OnlyDirect(kinds, contacts)
    && forall c <- list :: c in kinds
  }

  /** A state in the middle of the loop, `todo` still ahead and `seen` behind. */
  ghost predicate Underway(
    st: State, kinds: Kinds, contacts: map<Id, Contact>, todo: seq<Id>, seen: set<Id>, all: seq<Id>)
  {
    && Tracked(st, kinds, seen) && Dropped(contacts, st.contacts, seen)
    && Ahead(st, todo, seen) && Accounted(st, all) && NoDuplicates(todo)
    && Elements(todo) + seen == Elements(all) && (forall c <- all :: c in kinds)
  }

  lemma VisitUnderway(
    st: State, kinds: Kinds, contacts: map<Id, Contact>, rest: seq<Id>, c: Id, seen: set<Id>, all: seq<Id>)
    requires Underway(st, kinds, contacts, rest + [c], seen, all)
    ensures c in kinds && c !in seen && c !in rest && c in st.list && |rest| < |st.list| && st.list[|rest|] == c
    ensures Underway(Visit(st, kinds, c), kinds, contacts, rest, seen + {c}, all)
  {
    LastOfTodo(st.list, rest, c, seen, all);
    VisitList(st, kinds, seen, c, rest, all);
    VisitTracked(st, kinds, contacts, seen, c);
  }

  lemma VisitTracked(st: State, kinds: Kinds, contacts: map<Id, Contact>, seen: set<Id>, c: Id)
    requires Tracked(st, kinds, seen) && c in kinds && c !in seen && c in st.list
    requires Dropped(contacts, st.contacts, seen)
    ensures Tracked(Visit(st, kinds, c), kinds, seen + {c})
    ensures Dropped(contacts, Visit(st, kinds, c).contacts, seen + {c})
  {
    if kinds[c].Direct? { VisitDirect(st, kinds, seen, c); } else { VisitGroup(st, kinds, seen, c); }
    DroppedOn(contacts, st.contacts, Visit(st, kinds, c).contacts, seen, c);
  }

  lemma DroppedOn(
    contacts: map<Id, Contact>, now: map<Id, Contact>, after: map<Id, Contact>, seen: set<Id>, c: Id)
    requires Dropped(contacts, now, seen) && (after == now || Dropped(now, after, seen))
    ensures Dropped(contacts, after, seen + {c})
  {}

  lemma LastOfTodo(list: seq<Id>, rest: seq<Id>, c: Id, seen: set<Id>, all: seq<Id>)
    requires rest + [c] <= list && NoDuplicates(rest + [c]) && Elements(rest + [c]) + seen == Elements(all)
    ensures rest <= list && NoDuplicates(rest) && c !in rest && c in all
    ensures Elements(rest) + (seen + {c}) == Elements(all)
    ensures |rest| < |list| && list[|rest|] == c && c in list && forall x <- seen :: x in all
  {
    var todo := rest + [c];
    assert todo[|rest|] == c && list[|rest|] == c;
    PartsNoDuplicates(rest, [c]);
    assert Elements(todo) == Elements(rest) + {c};
    assert c in Elements(all);
    assert forall x <- seen :: x in Elements(all);
  }

  /** Halfway through, with `done` visited, and at the end with everything visited. */
  lemma {:induction false} Halfway(
    list: seq<Id>, kinds: Kinds, contacts: map<Id, Contact>, todo: seq<Id>, done: seq<Id>) returns (seen: set<Id>)
    requires Checkable(list, kinds, contacts) && todo + done == list
    ensures Underway(Visits(Initial(list, contacts), kinds, done), kinds, contacts, todo, seen, list)
    ensures forall x :: x in seen <==> x in done
    decreases |done|
  {
    if done == [] {
      assert todo == list;
      seen := {};
    } else {
      var c := done[0];
      assert todo + [c] + done[1..] == list;
      var before := Halfway(list, kinds, contacts, todo + [c], done[1..]);
      VisitUnderway(Visits(Initial(list, contacts), kinds, done[1..]), kinds, contacts, todo, c, before, list);
      seen := before + {c};
    }
  }

  lemma AtTheEnd(list: seq<Id>, kinds: Kinds, contacts: map<Id, Contact>)
    requires Checkable(list, kinds, contacts)
    ensures Underway(Check(list, kinds, contacts), kinds, contacts, [], Elements(list), list)
  {
    var seen := Halfway(list, kinds, contacts, [], list);
    assert seen == Elements(list);
  }

  /** The shrinking list still has the conversation to visit next at its old position. */
  lemma NextInPlace(list: seq<Id>, kinds: Kinds, contacts: map<Id, Contact>, todo: seq<Id>, c: Id, done: seq<Id>)
    requires Checkable(list, kinds, contacts) && todo + [c] + done == list
    ensures var st := Visits(Initial(list, contacts), kinds, done); |todo| < |st.list| && st.list[|todo|] == c
  {
    var seen := Halfway(list, kinds, contacts, todo + [c], done);
    VisitUnderway(Visits(Initial(list, contacts), kinds, done), kinds, contacts, todo, c, seen, list);
  }

  // ---------------------------------------------------------------- the survivors

  /** No two survivors have a service id, a PNI, a phone number or a group id in common. */
  lemma SurvivorsDistinct(list: seq<Id>, kinds: Kinds, contacts: map<Id, Contact>)
    requires Checkable(list, kinds, contacts)
    ensures
      var r := Check(list, kinds, contacts);
      forall a, b :: a in r.list && b in r.list && a in kinds && b in kinds && a != b ==>
        !Linked(kinds, r.contacts, a, b)
  {
    AtTheEnd(list, kinds, contacts);
    var r := Check(list, kinds, contacts);
    forall a, b | a in r.list && b in r.list && a in kinds && b in kinds && a != b
      ensures !Linked(kinds, r.contacts, a, b)
    {
      ListedBefore(r, list, a);
      ListedBefore(r, list, b);
      NotLinked(r, kinds, Elements(list), a, b);
    }
  }

  lemma ListedBefore(st: State, all: seq<Id>, x: Id)
    requires Accounted(st, all) && x in st.list
    ensures x in all
  {
    assert multiset(st.list)[x] > 0 && multiset(all)[x] > 0;
  }

  lemma NotLinked(st: State, kinds: Kinds, seen: set<Id>, a: Id, b: Id)
    requires Tracked(st, kinds, seen) && a in seen && b in seen && a in st.list && b in st.list && a != b
    requires a in kinds && b in kinds
    ensures !Linked(kinds, st.contacts, a, b)
  {
    assert forall v :: HoldsId(st, a, v) ==> !HoldsId(st, b, v);
    assert forall e :: HoldsE164(st, a, e) ==> !HoldsE164(st, b, e);
    assert GroupOf(st, kinds, a) == GroupV2IdOf(kinds[a], st.contacts[a]);
    assert GroupOf(st, kinds, b) == GroupV2IdOf(kinds[b], st.contacts[b]);
    var ca, cb := st.contacts[a], st.contacts[b];
    if ca.serviceId.Some? { assert HoldsId(st, a, ca.serviceId.value); }
    if ca.pni.Some? { assert HoldsId(st, a, ca.pni.value); }
    if ca.e164.Some? { assert HoldsE164(st, a, ca.e164.value); }
  }

  /**
   Every conversation is left or was combined into another one, exactly once, and the only
   attribute the check ever writes is a phone number it drops.
   */
  lemma EveryoneAccounted(list: seq<Id>, kinds: Kinds, contacts: map<Id, Contact>)
    requires Checkable(list, kinds, contacts)
    ensures var r := Check(list, kinds, contacts); Accounted(r, list) && Dropped(contacts, r.contacts, Elements(list))
  {
    AtTheEnd(list, kinds, contacts);
  }

  /** Of the groups with one version two id exactly one is left, of version two if any was. */
  lemma OneGroupLeft(list: seq<Id>, kinds: Kinds, contacts: map<Id, Contact>, c: Id, g: string) returns (left: Id)
    requires Checkable(list, kinds, contacts) && c in list && GroupV2IdOf(kinds[c], contacts[c]) == Some(g)
    ensures
      var r := Check(list, kinds, contacts);
      && left in r.list && left in kinds && (kinds[c].GroupV2? ==> kinds[left].GroupV2?)
      && forall d <- r.list :: d in kinds && (GroupV2IdOf(kinds[d], contacts[d]) == Some(g) <==> d == left)
  {
    var r := Check(list, kinds, contacts);
    AtTheEnd(list, kinds, contacts);
    assert GroupOf(r, kinds, c) == Some(g);
    left := r.byGroupV2Id[g];
    forall d | d in r.list
      ensures d in kinds && (GroupV2IdOf(kinds[d], contacts[d]) == Some(g) <==> d == left)
    {
      ListedBefore(r, list, d);
      OnlyGroupLeft(r, kinds, contacts, Elements(list), d, g);
    }
  }

  lemma OnlyGroupLeft(r: State, kinds: Kinds, contacts: map<Id, Contact>, seen: set<Id>, d: Id, g: string)
    requires Tracked(r, kinds, seen) && Dropped(contacts, r.contacts, seen) && d in seen && d in r.list && d in kinds
    requires g in r.byGroupV2Id
    ensures GroupV2IdOf(kinds[d], contacts[d]) == Some(g) <==> d == r.byGroupV2Id[g]
  {
    assert GroupOf(r, kinds, d) == GroupV2IdOf(kinds[d], contacts[d]);
  }

  // ---------------------------------------------------------------- who cannot lose

  /**
   Apart from those it shares at most a phone number with, rivals visited later yield to the
   conversation at position `k`, and it beats those visited before it.
   */
  ghost predicate Unbeaten(kinds: Kinds, contacts: map<Id, Contact>, all: seq<Id>, k: nat)
    requires k < |all| && contacts.Keys == kinds.Keys && forall c <- all :: c in kinds
  {
    && (forall j :: 0 <= j < k && Linked(kinds, contacts, all[j], all[k]) ==>
          Yields(kinds, contacts, all[j], all[k]) || Apart(contacts, all[j], all[k]))
    && (forall j :: k < j < |all| && Linked(kinds, contacts, all[k], all[j]) ==>
          Beats(kinds, contacts, all[k], all[j]) || Apart(contacts, all[k], all[j]))
  }

  /** Nobody visited later takes its phone number either. */
  ghost predicate Untouched(kinds: Kinds, contacts: map<Id, Contact>, all: seq<Id>, k: nat)
    requires k < |all| && contacts.Keys == kinds.Keys && forall c <- all :: c in kinds
  {
    forall j :: 0 <= j < k && Linked(kinds, contacts, all[j], all[k]) ==> Yields(kinds, contacts, all[j], all[k])
  }

  /** While another conversation than the unbeaten one is visited, and while itself is. */
  lemma OtherIsHarmless(st: State, kinds: Kinds, contacts: map<Id, Contact>, seen: set<Id>, c: Id, x: Id)
    requires Known(st, kinds) && c in kinds && x in kinds && c != x && Dropped(contacts, st.contacts, seen)
    requires c !in seen
    requires contacts.Keys == kinds.Keys
    requires Linked(kinds, contacts, c, x) ==> Yields(kinds, contacts, c, x) || Apart(contacts, c, x)
    ensures Safe(st, kinds, seen, c, x)
    ensures (Linked(kinds, contacts, c, x) ==> Yields(kinds, contacts, c, x)) ==>
              (Linked(kinds, st.contacts, c, x) ==> Yields(kinds, st.contacts, c, x))
  {}

  lemma OwnVisitIsHarmless(st: State, kinds: Kinds, contacts: map<Id, Contact>, seen: set<Id>, x: Id)
    requires Known(st, kinds) && x in kinds && contacts.Keys == kinds.Keys && Dropped(contacts, st.contacts, seen)
    requires x !in seen
    requires forall d :: d in seen && d in kinds && Linked(kinds, contacts, x, d) ==>
        Beats(kinds, contacts, x, d) || Apart(contacts, x, d)
    ensures Safe(st, kinds, seen, x, x)
  {}

  /** A conversation still ahead is not touched by the visit of another one. */
  lemma AheadIsSteady(
    st: State, kinds: Kinds, contacts: map<Id, Contact>, rest: seq<Id>, c: Id, seen: set<Id>, all: seq<Id>, k: nat)
    requires Underway(st, kinds, contacts, rest + [c], seen, all) && k < |rest|
    ensures c in kinds && rest[k] in Visit(st, kinds, c).list && rest[k] in contacts && rest[k] in st.contacts
    ensures Visit(st, kinds, c).contacts[rest[k]] == st.contacts[rest[k]]
  {
    VisitUnderway(st, kinds, contacts, rest, c, seen, all);
    assert Visit(st, kinds, c).list[k] == rest[k] && (rest + [c])[k] == rest[k];
    assert rest[k] in Elements(rest + [c]) && rest[k] in all;
  }

  /** Visiting `c`, which stands at position `n`, leaves the unbeaten conversation alone. */
  lemma SteadyVisit(
    st: State, kinds: Kinds, contacts: map<Id, Contact>, rest: seq<Id>, c: Id, done: seq<Id>, seen: set<Id>,
    list: seq<Id>, k: nat)
    requires Checkable(list, kinds, contacts) && rest + [c] + done == list && (forall x :: x in seen <==> x in done)
    requires Underway(st, kinds, contacts, rest + [c], seen, list) && k < |list| && Unbeaten(kinds, contacts, list, k)
    requires list[k] in st.list
    ensures list[k] in Visit(st, kinds, c).list
    ensures Untouched(kinds, contacts, list, k) ==> Visit(st, kinds, c).contacts[list[k]] == st.contacts[list[k]]
  {
    var n := |rest|;
    assert list[n] == c && done == list[n + 1..];
    if k < n {
      assert list[k] == rest[k];
      AheadIsSteady(st, kinds, contacts, rest, c, seen, list, k);
    } else {
      LastOfTodo(st.list, rest, c, seen, list);
      assert (rest + [c])[n] == c && c in rest + [c];
      if n < k {
        OtherIsHarmless(st, kinds, contacts, seen, c, list[k]);
      } else {
        SeenBehind(kinds, contacts, list, done, seen, k);
        OwnVisitIsHarmless(st, kinds, contacts, seen, c);
      }
      VisitSafe(st, kinds, seen, c, list[k]);
    }
  }

  /** What was visited before the conversation at position `k` stands behind it. */
  lemma SeenBehind(kinds: Kinds, contacts: map<Id, Contact>, list: seq<Id>, done: seq<Id>, seen: set<Id>, k: nat)
    requires k < |list| && contacts.Keys == kinds.Keys && (forall c <- list :: c in kinds)
    requires Unbeaten(kinds, contacts, list, k)
    requires done == list[k + 1..] && forall x :: x in seen <==> x in done
    ensures forall d :: d in seen && d in kinds && Linked(kinds, contacts, list[k], d) ==>
              Beats(kinds, contacts, list[k], d) || Apart(contacts, list[k], d)
  {
    assert forall d <- done :: exists j :: k < j < |list| && list[j] == d;
  }

  lemma {:induction false} Steady(
    list: seq<Id>, kinds: Kinds, contacts: map<Id, Contact>, todo: seq<Id>, done: seq<Id>, k: nat)
    requires Checkable(list, kinds, contacts) && todo + done == list && k < |list| && Unbeaten(kinds, contacts, list, k)
    ensures
      var r := Visits(Initial(list, contacts), kinds, done);
      list[k] in r.list && (Untouched(kinds, contacts, list, k) ==> r.contacts[list[k]] == contacts[list[k]])
    decreases |done|
  {
    if done != [] {
      var c := done[0];
      assert todo + [c] + done[1..] == list;
      Steady(list, kinds, contacts, todo + [c], done[1..], k);
      var seen := Halfway(list, kinds, contacts, todo + [c], done[1..]);
      var st := Visits(Initial(list, contacts), kinds, done[1..]);
      SteadyVisit(st, kinds, contacts, todo, c, done[1..], seen, list, k);
    }
  }

  /**
   Who wins: an unbeaten conversation survives, and as it was unless a later one takes its phone
   number. In particular a conversation that shares nothing is not changed.
   */
  lemma UnbeatenStays(list: seq<Id>, kinds: Kinds, contacts: map<Id, Contact>, k: nat)
    requires Checkable(list, kinds, contacts) && k < |list| && Unbeaten(kinds, contacts, list, k)
    ensures
      var r := Check(list, kinds, contacts);
      list[k] in r.list && (Untouched(kinds, contacts, list, k) ==> r.contacts[list[k]] == contacts[list[k]])
  {
    Steady(list, kinds, contacts, [], list, k);
  }

  lemma LostVisit(st: State, kinds: Kinds)
    requires Known(st, kinds) && kinds == map["a" := Direct, "b" := Direct, "c" := Direct]
    requires st.list == ["c", "b", "a"] && st.merges == [] && st.byServiceId == map["X" := "a", "Y" := "b"]
    requires st.contacts["c"] == Contact(Some("X"), None, Some("Y"), None)
    ensures
      var r := Visit(st, kinds, "c");
      r.list == ["a"] && r.merges == [Merge("a", "c"), Merge("c", "b")] && r.contacts == st.contacts
  {
    var s1 := CheckServiceId(st, kinds, "c");
    assert Without(["c", "b", "a"], "c") == ["b", "a"];
    assert s1 == st.(list := ["b", "a"], merges := [Merge("a", "c")]);
    var s2 := CheckPni(s1, kinds, "c");
    assert Without(["b", "a"], "b") == ["a"];
    assert s2.list == ["a"] && s2.merges == [Merge("a", "c"), Merge("c", "b")];
    assert Visit(st, kinds, "c") == s2;
  }

  /**
   The check does not guarantee that a survivor absorbs what is combined away: here a conversation
   is combined into one that was itself combined away a moment before, and its service id is gone.
   */
  lemma ServiceIdIsLost() returns (list: seq<Id>, kinds: Kinds, contacts: map<Id, Contact>)
    ensures Checkable(list, kinds, contacts)
    ensures "b" in contacts && contacts["b"].Holds("Y")
    ensures
      var r := Check(list, kinds, contacts);
      && r.merges == [Merge("a", "c"), Merge("c", "b")] && r.list == ["a"]
      && forall d <- r.list :: d in r.contacts && !r.contacts[d].Holds("Y")
  {
    list := ["c", "b", "a"];
    kinds := map["a" := Direct, "b" := Direct, "c" := Direct];
    var a := Contact(Some("X"), None, None, None);
    var b := Contact(Some("Y"), None, None, None);
    var c := Contact(Some("X"), None, Some("Y"), None);
    contacts := map["a" := a, "b" := b, "c" := c];
    LostRun(list, kinds, contacts);
    assert "X" != "Y";
  }

  lemma LostRun(list: seq<Id>, kinds: Kinds, contacts: map<Id, Contact>)
    requires list == ["c", "b", "a"] && kinds == map["a" := Direct, "b" := Direct, "c" := Direct]
    requires contacts.Keys == kinds.Keys && contacts["a"] == Contact(Some("X"), None, None, None)
    requires contacts["b"] == Contact(Some("Y"), None, None, None)
    requires contacts["c"] == Contact(Some("X"), None, Some("Y"), None)
    ensures
      var r := Check(list, kinds, contacts);
      r.merges == [Merge("a", "c"), Merge("c", "b")] && r.list == ["a"] && r.contacts == contacts
  {
    var s0 := Initial(list, contacts);
    var s1 := Visit(s0, kinds, "a");
    assert s1 == s0.(byServiceId := map["X" := "a"]);
    var s2 := Visit(s1, kinds, "b");
    assert s2 == s0.(byServiceId := map["X" := "a", "Y" := "b"]);
    LostVisit(s2, kinds);
    assert list[1..] == ["b", "a"] && ["b", "a"][1..] == ["a"] && ["a"][1..] == [];
    assert Visits(s0, kinds, ["a"]) == s1;
    assert Visits(s0, kinds, ["b", "a"]) == s2;
  }
}
