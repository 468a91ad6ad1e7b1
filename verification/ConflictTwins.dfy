/**
 Contacts that agree on all three identifiers: when the conflict check leaves exactly one of
 them, and when it leaves none.
 */
module ConflictTwins {
  import opened Wrappers
  import opened Lists
  import opened ContactBook
  import opened ContactMerge
  import opened ConflictRules
  import opened ConflictProofs
  import opened ConflictResult

  predicate SameIdentifiers(c: Contact, d: Contact) { c.serviceId == d.serviceId && c.e164 == d.e164 && c.pni == d.pni }

  /** `x` is a contact whose only rivals are its twins. */
  ghost predicate OnlyTwins(list: seq<Id>, kinds: Kinds, contacts: map<Id, Contact>, x: Id) {
    && Checkable(list, kinds, contacts) && x in list && !contacts[x].Bare()
    && forall y <- list :: Linked(kinds, contacts, x, y) ==> SameIdentifiers(contacts[x], contacts[y])
  }

  predicate Twin(contacts: map<Id, Contact>, x: Id, y: Id) {
    x in contacts && y in contacts && SameIdentifiers(contacts[x], contacts[y])
  }

  /** One of a pair of twins gives way to the other, and not both to each other. */
  predicate Balanced(c: Contact) { c.pni.None? || (c.serviceId.Some? <==> c.e164.Some?) }

  lemma TwinsAreLinked(list: seq<Id>, kinds: Kinds, contacts: map<Id, Contact>, x: Id, y: Id)
    requires OnlyTwins(list, kinds, contacts, x) && y in list
    ensures kinds[x].Direct? && (Twin(contacts, x, y) <==> Linked(kinds, contacts, x, y))
    ensures Twin(contacts, x, y) ==> kinds[y].Direct?
  {}

  /** Twins are rivals of each other and of nobody else. */
  lemma TwinRivals(list: seq<Id>, kinds: Kinds, contacts: map<Id, Contact>, x: Id, y: Id, z: Id)
    requires OnlyTwins(list, kinds, contacts, x) && y in list && z in list && Twin(contacts, x, y)
    ensures Linked(kinds, contacts, y, z) <==> Twin(contacts, x, z)
    ensures Linked(kinds, contacts, z, y) <==> Twin(contacts, x, z)
  {
    TwinsAreLinked(list, kinds, contacts, x, y);
    TwinsAreLinked(list, kinds, contacts, x, z);
  }

  /**
   What one visit needs to know: everybody seen or visited is of the list, and attributes are as they were
   but for dropped numbers.
   */
  ghost predicate Visiting(list: seq<Id>, kinds: Kinds, contacts: map<Id, Contact>, st: State, seen: set<Id>, c: Id) {
    && Checkable(list, kinds, contacts) && Tracked(st, kinds, seen) && Dropped(contacts, st.contacts, seen)
    && c in list && c in st.list && c !in seen && forall y <- seen :: y in list
  }

  lemma VisitingNext(list: seq<Id>, kinds: Kinds, contacts: map<Id, Contact>, todo: seq<Id>, c: Id, done: seq<Id>)
    requires Checkable(list, kinds, contacts) && todo + [c] + done == list
    ensures Visiting(list, kinds, contacts, Visits(Initial(list, contacts), kinds, done), Elements(done), c)
  {
    var st := Visits(Initial(list, contacts), kinds, done);
    var seen := Halfway(list, kinds, contacts, todo + [c], done);
    assert seen == Elements(done);
    LastOfTodo(st.list, todo, c, seen, list);
    assert (todo + [c])[|todo|] == c && c in todo + [c];
  }

  // ---------------------------------------------------------------- one is left

  /** Of a twin that is there and a conversation that is visited, the twin stays, or another one does. */
  lemma TwinStays(
    list: seq<Id>, kinds: Kinds, contacts: map<Id, Contact>, x: Id, st: State, seen: set<Id>, c: Id, y: Id)
    returns (left: Id)
    requires OnlyTwins(list, kinds, contacts, x) && Balanced(contacts[x])
    requires Visiting(list, kinds, contacts, st, seen, c)
    requires y in list && Twin(contacts, x, y) && y in st.list && y in seen
    ensures (left == y || left == c) && Twin(contacts, x, left) && left in Visit(st, kinds, c).list
  {
    TwinRivals(list, kinds, contacts, x, y, c);
    if Twin(contacts, x, c) && (contacts[x].serviceId.Some? <==> contacts[x].e164.Some?) {
      TwinsAreLinked(list, kinds, contacts, x, c);
      OwnVisitIsHarmless(st, kinds, contacts, seen, c);
      VisitSafe(st, kinds, seen, c, c);
      left := c;
    } else {
      TwinsAreLinked(list, kinds, contacts, x, c);
      OtherIsHarmless(st, kinds, contacts, seen, c, y);
      VisitSafe(st, kinds, seen, c, y);
      left := y;
    }
  }

  /** The first twin stays when it is visited. */
  lemma FirstTwinStays(list: seq<Id>, kinds: Kinds, contacts: map<Id, Contact>, x: Id, st: State, seen: set<Id>, c: Id)
    requires OnlyTwins(list, kinds, contacts, x) && Visiting(list, kinds, contacts, st, seen, c)
    requires Twin(contacts, x, c) && forall y <- seen :: !Twin(contacts, x, y)
    ensures c in Visit(st, kinds, c).list
  {
    forall d | d in seen && d in kinds
      ensures !Linked(kinds, contacts, c, d)
    {
      TwinRivals(list, kinds, contacts, x, c, d);
    }
    OwnVisitIsHarmless(st, kinds, contacts, seen, c);
    VisitSafe(st, kinds, seen, c, c);
  }

  lemma {:induction false} OneTwinLeft(
    list: seq<Id>, kinds: Kinds, contacts: map<Id, Contact>, x: Id, w: Id, todo: seq<Id>, done: seq<Id>)
    returns (left: Id)
    requires OnlyTwins(list, kinds, contacts, x) && Balanced(contacts[x]) && todo + done == list
    requires w in done && Twin(contacts, x, w)
    ensures left in done && Twin(contacts, x, left) && left in Visits(Initial(list, contacts), kinds, done).list
    decreases |done|
  {
    var c, before := done[0], done[1..];
    assert todo + [c] + before == list;
    var st := Visits(Initial(list, contacts), kinds, before);
    var seen := Elements(before);
    VisitingNext(list, kinds, contacts, todo, c, before);
    if v :| v in before && Twin(contacts, x, v) {
      var y := OneTwinLeft(list, kinds, contacts, x, v, todo + [c], before);
      left := TwinStays(list, kinds, contacts, x, st, seen, c, y);
    } else {
      assert w == c;
      FirstTwinStays(list, kinds, contacts, x, st, seen, c);
      left := c;
    }
  }

  // ---------------------------------------------------------------- none is left

  lemma {:induction false} WithoutShrinks(s: seq<Id>, x: Id)
    ensures forall y <- Without(s, x) :: y in s && y != x
  {
    if s != [] { WithoutShrinks(s[1..], x); }
  }

  lemma CombineShrinks(st: State, kinds: Kinds, current: Id, obsolete: Id)
    requires current in kinds && obsolete in kinds
    ensures forall y <- Combine(st, kinds, current, obsolete).list :: y in st.list
    ensures kinds[current].Direct? == kinds[obsolete].Direct? ==>
        obsolete !in Combine(st, kinds, current, obsolete).list
  {
    WithoutShrinks(st.list, obsolete);
  }

  lemma PhasesShrink(st: State, kinds: Kinds, c: Id)
    requires Known(st, kinds) && c in kinds
    ensures forall y <- CheckServiceId(st, kinds, c).list :: y in st.list
    ensures forall y <- CheckPni(st, kinds, c).list :: y in st.list
    ensures forall y <- CheckE164(st, kinds, c).list :: y in st.list
    ensures forall y <- CheckGroup(st, kinds, c).list :: y in st.list
  {
    forall d, e | d in kinds && e in kinds
      ensures forall y <- Combine(st, kinds, d, e).list :: y in st.list
    {
      CombineShrinks(st, kinds, d, e);
    }
  }

  lemma VisitShrinks(st: State, kinds: Kinds, c: Id)
    requires Known(st, kinds) && c in kinds
    ensures forall y <- Visit(st, kinds, c).list :: y in st.list
  {
    var r1 := CheckServiceId(st, kinds, c);
    var r2 := CheckPni(r1, kinds, c);
    PhasesShrink(st, kinds, c);
    PhasesShrink(r1, kinds, c);
    PhasesShrink(r2, kinds, c);
    PhasesShrink(CheckE164(r2, kinds, c), kinds, c);
  }

  function KeySet(v: Option<string>): set<string> { if v.Some? then {v.value} else {} }

  lemma SetKey(m: map<string, Id>, v: string, c: Id)
    ensures m[v := c].Keys == m.Keys + {v} && (v in m ==> m.Keys + {v} == m.Keys)
  {}

  lemma ServiceIdKeys(st: State, kinds: Kinds, c: Id)
    requires Known(st, kinds) && c in kinds
    ensures
      var r := CheckServiceId(st, kinds, c);
      && r.contacts == st.contacts && r.byE164 == st.byE164
      && r.byServiceId.Keys == st.byServiceId.Keys + KeySet(st.contacts[c].serviceId)
  {
    if st.contacts[c].serviceId.Some? { SetKey(st.byServiceId, st.contacts[c].serviceId.value, c); }
  }

  lemma PniKeys(st: State, kinds: Kinds, c: Id)
    requires Known(st, kinds) && c in kinds
    ensures
      var r := CheckPni(st, kinds, c);
      && r.contacts == st.contacts && r.byE164 == st.byE164
      && r.byServiceId.Keys == st.byServiceId.Keys + KeySet(st.contacts[c].pni)
  {
    if st.contacts[c].pni.Some? { SetKey(st.byServiceId, st.contacts[c].pni.value, c); }
  }

  lemma PhoneKeys(st: State, kinds: Kinds, c: Id)
    requires Known(st, kinds) && c in kinds
    ensures
      var r := CheckE164(st, kinds, c);
      r.byServiceId == st.byServiceId && r.byE164.Keys == st.byE164.Keys + KeySet(st.contacts[c].e164)
  {
    if st.contacts[c].e164.Some? { SetKey(st.byE164, st.contacts[c].e164.value, c); }
  }

  /** Keys are never taken out of the tables, and those of the visited contact are in them afterwards. */
  lemma GroupKeys(st: State, kinds: Kinds, c: Id)
    requires Known(st, kinds) && c in kinds
    ensures CheckGroup(st, kinds, c).byServiceId == st.byServiceId && CheckGroup(st, kinds, c).byE164 == st.byE164
  {}

  lemma VisitKeys(st: State, kinds: Kinds, c: Id)
    requires Known(st, kinds) && c in kinds
    ensures
      var r, d := Visit(st, kinds, c), st.contacts[c];
      && r.byServiceId.Keys >= st.byServiceId.Keys + KeySet(d.serviceId)
      && r.byE164.Keys >= st.byE164.Keys + KeySet(d.e164)
  {
    var r1 := CheckServiceId(st, kinds, c);
    var r2 := CheckPni(r1, kinds, c);
    var r3 := CheckE164(r2, kinds, c);
    ServiceIdKeys(st, kinds, c);
    PniKeys(r1, kinds, c);
    PhoneKeys(r2, kinds, c);
    GroupKeys(r3, kinds, c);
    assert Visit(st, kinds, c) == r3 || Visit(st, kinds, c) == CheckGroup(r3, kinds, c);
  }

  /** The key by which every later twin is combined away. */
  predicate KeyPresent(st: State, c: Contact) {
    if c.serviceId.Some? then c.serviceId.value in st.byServiceId else c.e164.Some? && c.e164.value in st.byE164
  }

  predicate Unbalanced(c: Contact) { !Balanced(c) }

  /** Without a phone number, or without a service id, the first phase leaves tables and attributes alone. */
  lemma ServiceIdYields(st: State, kinds: Kinds, c: Id)
    requires Known(st, kinds) && c in kinds
    requires
      var v := st.contacts[c].serviceId;
      v.Some? ==>
        && st.contacts[c].e164.None? && v.value in st.byServiceId
        && kinds[st.byServiceId[v.value]].Direct? == kinds[c].Direct?
    ensures
      var r := CheckServiceId(st, kinds, c);
      && r == st.(list := r.list, merges := r.merges)
      && (st.contacts[c].serviceId.Some? ==> c !in r.list)
  {
    if st.contacts[c].serviceId.Some? { CombineShrinks(st, kinds, st.byServiceId[st.contacts[c].serviceId.value], c); }
  }

  lemma PniTakes(st: State, kinds: Kinds, c: Id, y: Id)
    requires Known(st, kinds) && c in kinds && y in kinds && kinds[c].Direct? == kinds[y].Direct? && c != y
    requires st.contacts[c].pni.Some? && st.contacts[c].pni.value in st.byServiceId
    requires st.byServiceId[st.contacts[c].pni.value] == y
    ensures y !in CheckPni(st, kinds, c).list
  {
    CombineShrinks(st, kinds, c, y);
  }

  lemma PhoneYields(st: State, kinds: Kinds, c: Id)
    requires Known(st, kinds) && c in kinds && st.contacts[c].serviceId.None?
    requires
      var e := st.contacts[c].e164;
      e.Some? && e.value in st.byE164 && kinds[st.byE164[e.value]].Direct? == kinds[c].Direct?
    ensures c !in CheckE164(st, kinds, c).list
  {
    CombineShrinks(st, kinds, st.byE164[st.contacts[c].e164.value], c);
  }

  /** Whoever is gone after a phase is gone after the visit. */
  lemma GoneAfterVisit(st: State, kinds: Kinds, c: Id, y: Id)
    requires Known(st, kinds) && c in kinds && kinds[c].Direct?
    requires
      var r1 := CheckServiceId(st, kinds, c);
      var r2 := CheckPni(r1, kinds, c);
      y !in r1.list || y !in r2.list || y !in CheckE164(r2, kinds, c).list
    ensures y !in Visit(st, kinds, c).list
  {
    var r1 := CheckServiceId(st, kinds, c);
    PhasesShrink(r1, kinds, c);
    PhasesShrink(CheckPni(r1, kinds, c), kinds, c);
  }

  /** Entries under the keys of a twin are twins. */
  lemma TwinEntries(list: seq<Id>, kinds: Kinds, contacts: map<Id, Contact>, x: Id, st: State, seen: set<Id>, c: Id)
    requires OnlyTwins(list, kinds, contacts, x) && Visiting(list, kinds, contacts, st, seen, c) && Twin(contacts, x, c)
    ensures c in kinds && kinds[c].Direct? && st.contacts[c] == contacts[c]
    ensures forall v :: v in st.byServiceId && contacts[c].Holds(v) ==> kinds[st.byServiceId[v]].Direct?
    ensures forall e :: e in st.byE164 && contacts[c].e164 == Some(e) ==> kinds[st.byE164[e]].Direct?
  {
    TwinsAreLinked(list, kinds, contacts, x, c);
    forall v | v in st.byServiceId && contacts[c].Holds(v)
      ensures kinds[st.byServiceId[v]].Direct?
    {
      assert HoldsId(st, st.byServiceId[v], v);
    }
    forall e | e in st.byE164 && contacts[c].e164 == Some(e)
      ensures kinds[st.byE164[e]].Direct?
    {
      assert HoldsE164(st, st.byE164[e], e);
    }
  }

  /** A twin visited when another one has been seen is combined away by its service id or its phone number. */
  lemma LaterTwinGoes(list: seq<Id>, kinds: Kinds, contacts: map<Id, Contact>, x: Id, st: State, seen: set<Id>, c: Id)
    requires OnlyTwins(list, kinds, contacts, x) && Unbalanced(contacts[x])
    requires Visiting(list, kinds, contacts, st, seen, c)
    requires Twin(contacts, x, c) && KeyPresent(st, contacts[x])
    ensures c !in Visit(st, kinds, c).list
  {
    TwinEntries(list, kinds, contacts, x, st, seen, c);
    ServiceIdYields(st, kinds, c);
    if contacts[x].serviceId.None? {
      var r1 := CheckServiceId(st, kinds, c);
      PniKeys(r1, kinds, c);
      PhoneYields(CheckPni(r1, kinds, c), kinds, c);
    }
    GoneAfterVisit(st, kinds, c, c);
  }

  /** And it takes the twin that was there with it, by the PNI. */
  lemma EarlierTwinGoes(
    list: seq<Id>, kinds: Kinds, contacts: map<Id, Contact>, x: Id, st: State, seen: set<Id>, c: Id, y: Id)
    requires OnlyTwins(list, kinds, contacts, x) && Unbalanced(contacts[x])
    requires Visiting(list, kinds, contacts, st, seen, c)
    requires Twin(contacts, x, c) && KeyPresent(st, contacts[x]) && y in seen && y in st.list && Twin(contacts, x, y)
    ensures y !in Visit(st, kinds, c).list
  {
    TwinEntries(list, kinds, contacts, x, st, seen, c);
    ServiceIdYields(st, kinds, c);
    assert HoldsId(st, y, contacts[x].pni.value);
    PniTakes(CheckServiceId(st, kinds, c), kinds, c, y);
    GoneAfterVisit(st, kinds, c, y);
  }

  /** Among the twins visited one is there only if it is the only one. */
  ghost predicate AtMostAlone(st: State, contacts: map<Id, Contact>, x: Id, seen: set<Id>) {
    && ((exists y <- seen :: Twin(contacts, x, y)) ==> x in contacts && KeyPresent(st, contacts[x]))
    && forall y, z :: y in seen && z in seen && Twin(contacts, x, y) && Twin(contacts, x, z) && y in st.list ==> z == y
  }

  lemma VisitKeepsAlone(list: seq<Id>, kinds: Kinds, contacts: map<Id, Contact>, x: Id, st: State, seen: set<Id>, c: Id)
    requires OnlyTwins(list, kinds, contacts, x) && Unbalanced(contacts[x])
    requires Visiting(list, kinds, contacts, st, seen, c)
    requires AtMostAlone(st, contacts, x, seen)
    ensures c in kinds && AtMostAlone(Visit(st, kinds, c), contacts, x, seen + {c})
  {
    VisitShrinks(st, kinds, c);
    assert st.contacts[c] == contacts[c];
    var present := exists w <- seen :: Twin(contacts, x, w);
    VisitHasKey(st, kinds, contacts[x], c, present);
    if present && Twin(contacts, x, c) { TwinsMeet(list, kinds, contacts, x, st, seen, c); }
    StillAlone(st, Visit(st, kinds, c), contacts, x, seen, c, present);
  }

  lemma StillAlone(st: State, r: State, contacts: map<Id, Contact>, x: Id, seen: set<Id>, c: Id, present: bool)
    requires AtMostAlone(st, contacts, x, seen) && x in contacts && present == exists w <- seen :: Twin(contacts, x, w)
    requires (forall y <- r.list :: y in st.list) && (present || Twin(contacts, x, c) ==> KeyPresent(r, contacts[x]))
    requires present && Twin(contacts, x, c) ==> forall y :: y in seen + {c} && Twin(contacts, x, y) ==> y !in r.list
    ensures AtMostAlone(r, contacts, x, seen + {c})
  {}

  lemma VisitHasKey(st: State, kinds: Kinds, x: Contact, c: Id, present: bool)
    requires Known(st, kinds) && c in kinds && Unbalanced(x) && (present ==> KeyPresent(st, x))
    ensures present || SameIdentifiers(x, st.contacts[c]) ==> KeyPresent(Visit(st, kinds, c), x)
  {
    VisitKeys(st, kinds, c);
  }

  lemma TwinsMeet(list: seq<Id>, kinds: Kinds, contacts: map<Id, Contact>, x: Id, st: State, seen: set<Id>, c: Id)
    requires OnlyTwins(list, kinds, contacts, x) && Unbalanced(contacts[x])
    requires Visiting(list, kinds, contacts, st, seen, c)
    requires Twin(contacts, x, c) && KeyPresent(st, contacts[x])
    ensures forall y :: y in seen + {c} && Twin(contacts, x, y) ==> y !in Visit(st, kinds, c).list
  {
    LaterTwinGoes(list, kinds, contacts, x, st, seen, c);
    VisitShrinks(st, kinds, c);
    forall y | y in seen && Twin(contacts, x, y)
      ensures y !in Visit(st, kinds, c).list
    {
      if y in st.list { EarlierTwinGoes(list, kinds, contacts, x, st, seen, c, y); }
    }
  }

  lemma {:induction false} TwinsGo(
    list: seq<Id>, kinds: Kinds, contacts: map<Id, Contact>, x: Id, todo: seq<Id>, done: seq<Id>)
    requires OnlyTwins(list, kinds, contacts, x) && Unbalanced(contacts[x]) && todo + done == list
    ensures AtMostAlone(Visits(Initial(list, contacts), kinds, done), contacts, x, Elements(done))
    decreases |done|
  {
    if done != [] {
      var c, before := done[0], done[1..];
      assert todo + [c] + before == list;
      var st := Visits(Initial(list, contacts), kinds, before);
      TwinsGo(list, kinds, contacts, x, todo + [c], before);
      VisitingNext(list, kinds, contacts, todo, c, before);
      VisitKeepsAlone(list, kinds, contacts, x, st, Elements(before), c);
      ElementsFirst(done);
    }
  }

  // ---------------------------------------------------------------- the theorem

  lemma LoneTwinStays(list: seq<Id>, kinds: Kinds, contacts: map<Id, Contact>, x: Id)
    requires OnlyTwins(list, kinds, contacts, x) && forall y <- list :: Twin(contacts, x, y) ==> y == x
    ensures x in Check(list, kinds, contacts).list
  {
    var k :| 0 <= k < |list| && list[k] == x;
    forall j | 0 <= j < |list| && j != k
      ensures !Linked(kinds, contacts, list[j], x) && !Linked(kinds, contacts, x, list[j])
    {
      assert list[j] in list && list[j] != x;
      TwinRivals(list, kinds, contacts, x, x, list[j]);
    }
    UnbeatenStays(list, kinds, contacts, k);
  }

  lemma OnlyOneTwin(list: seq<Id>, kinds: Kinds, contacts: map<Id, Contact>, x: Id, y: Id, z: Id)
    requires OnlyTwins(list, kinds, contacts, x) && Twin(contacts, x, y) && Twin(contacts, x, z)
    requires y in Check(list, kinds, contacts).list && z in Check(list, kinds, contacts).list
    ensures y == z
  {
    var r := Check(list, kinds, contacts);
    EveryoneAccounted(list, kinds, contacts);
    SurvivorsDistinct(list, kinds, contacts);
    assert Shares(r.contacts[y], r.contacts[z]);
    assert y in kinds && z in kinds && Linked(kinds, r.contacts, y, z);
  }

  /**
   Any number of contacts that agree on all identifiers and share none with anybody else: exactly one
   is left if there is but one, if they have no PNI, or if they have service id and phone number or
   neither; otherwise none is left, and their identifiers are gone with them.
   */
  lemma TwinsLeft(list: seq<Id>, kinds: Kinds, contacts: map<Id, Contact>, x: Id)
    requires OnlyTwins(list, kinds, contacts, x)
    ensures
      var r := Check(list, kinds, contacts);
      var alone := forall y <- list :: Twin(contacts, x, y) ==> y == x;
      var c := contacts[x];
      if alone || c.pni.None? || (c.serviceId.Some? <==> c.e164.Some?)
      then exists left <- r.list :: Twin(contacts, x, left) && forall y <- r.list :: Twin(contacts, x, y) ==> y == left
      else forall y <- r.list :: !Twin(contacts, x, y)
  {
    if Unbalanced(contacts[x]) && exists y <- list :: Twin(contacts, x, y) && y != x {
      NoTwinLeft(list, kinds, contacts, x);
    } else {
      var left := x;
      if Balanced(contacts[x]) {
        left := OneTwinLeft(list, kinds, contacts, x, x, [], list);
      } else {
        LoneTwinStays(list, kinds, contacts, x);
      }
      forall y | y in Check(list, kinds, contacts).list && Twin(contacts, x, y)
        ensures y == left
      {
        OnlyOneTwin(list, kinds, contacts, x, y, left);
      }
    }
  }

  lemma NoTwinLeft(list: seq<Id>, kinds: Kinds, contacts: map<Id, Contact>, x: Id)
    requires OnlyTwins(list, kinds, contacts, x) && Unbalanced(contacts[x])
    requires exists y <- list :: Twin(contacts, x, y) && y != x
    ensures forall y <- Check(list, kinds, contacts).list :: !Twin(contacts, x, y)
  {
    var r := Check(list, kinds, contacts);
    TwinsGo(list, kinds, contacts, x, [], list);
    EveryoneAccounted(list, kinds, contacts);
    var z :| z in list && Twin(contacts, x, z) && z != x;
    forall y | y in r.list
      ensures !Twin(contacts, x, y)
    {
      ListedBefore(r, list, y);
      assert y in Elements(list) && z in Elements(list) && x in Elements(list) && Twin(contacts, x, x);
    }
  }
}
