/** Two conversations that are rivals of each other only: exactly when the conflict check loses both of them. */
module ConflictPairs {
  import opened Wrappers
  import opened Lists
  import opened ContactBook
  import opened ContactMerge
  import opened ConflictRules
  import opened ConflictProofs
  import opened ConflictResult
  import opened ConflictTwins
  import opened ConflictHeirs
  import opened ConflictFound

  /** `list[i]`, which is visited later, and `list[j]` compete with each other and with nobody else. */
  ghost predicate Pair(list: seq<Id>, kinds: Kinds, contacts: map<Id, Contact>, i: nat, j: nat) {
    && Checkable(list, kinds, contacts) && i < j < |list| && Linked(kinds, contacts, list[i], list[j])
    && forall k :: 0 <= k < |list| && k != i && k != j ==>
         !Linked(kinds, contacts, list[i], list[k]) && !Linked(kinds, contacts, list[j], list[k])
  }

  /**
   The one visited later has a PNI that the other one holds; and it has a service id without a phone
   number and the other one holds that, or a phone number without a service id and the other one has that.
   */
  predicate LoseEachOther(later: Contact, earlier: Contact) {
    && later.pni.Some? && earlier.Holds(later.pni.value)
    && ((later.serviceId.Some? && later.e164.None? && earlier.Holds(later.serviceId.value))
        || (later.e164.Some? && later.serviceId.None? && earlier.e164 == later.e164))
  }

  lemma LinkedSymmetric(kinds: Kinds, contacts: map<Id, Contact>, a: Id, b: Id)
    requires a in kinds && b in kinds && a in contacts && b in contacts
    ensures Linked(kinds, contacts, a, b) <==> Linked(kinds, contacts, b, a)
  {}

  // ---------------------------------------------------------------- following the merges

  lemma {:induction false} HeirOfListed(ms: seq<Merge>, x: Id)
    requires x !in Obsoletes(ms)
    ensures Heir(ms, x) == x
  {
    if ms != [] { HeirOfListed(ms[..|ms| - 1], x); }
  }

  lemma HeirAfterMerge(ms: seq<Merge>, m: Merge, x: Id)
    ensures Heir(ms + [m], x) == if Heir(ms, x) == m.obsolete then m.current else Heir(ms, x)
  {
    assert (ms + [m])[..|ms|] == ms;
  }

  /** An heir that is there stays the heir if it stays, and one that is gone stays the heir in any case. */
  lemma StepKeepsHeir(st: State, r: State, kinds: Kinds, seen: set<Id>, c: Id, x: Id)
    requires Known(st, kinds) && c in kinds && Step(st, r, kinds, seen, c) && NoDuplicates(st.list)
    requires Heir(st.merges, x) !in st.list || Heir(st.merges, x) in r.list
    ensures Heir(r.merges, x) == Heir(st.merges, x) && forall y <- r.list :: y in st.list
  {
    if !(r.list == st.list && r.merges == st.merges) {
      var current, obsolete :| Fair(st, kinds, seen, c, current, obsolete) && Combined(st, r, current, obsolete);
      WithoutMember(st.list, obsolete);
      HeirAfterMerge(st.merges, Merge(current, obsolete), x);
    }
  }

  lemma StepShrinks(st: State, r: State, kinds: Kinds, seen: set<Id>, c: Id)
    requires Known(st, kinds) && c in kinds && Step(st, r, kinds, seen, c)
    ensures forall y <- r.list :: y in st.list
  {
    if !(r.list == st.list && r.merges == st.merges) {
      var current, obsolete :| Fair(st, kinds, seen, c, current, obsolete) && Combined(st, r, current, obsolete);
      WithoutShrinks(st.list, obsolete);
    }
  }

  lemma VisitKeepsHeir(st: State, kinds: Kinds, seen: set<Id>, c: Id, x: Id)
    requires Tracked(st, kinds, seen) && c in kinds && c !in seen
    requires Heir(st.merges, x) !in st.list || Heir(st.merges, x) in Visit(st, kinds, c).list
    ensures Heir(Visit(st, kinds, c).merges, x) == Heir(st.merges, x)
  {
    var r := Visit(st, kinds, c);
    if kinds[c].Direct? {
      var r1, r2 := VisitSteps(st, kinds, seen, c);
      StepShrinks(st, r1, kinds, seen, c);
      StepShrinks(r1, r2, kinds, seen, c);
      StepShrinks(r2, r, kinds, seen, c);
      StepKeepsNoDuplicates(st, r1, kinds, seen, c);
      StepKeepsNoDuplicates(r1, r2, kinds, seen, c);
      StepKeepsHeir(st, r1, kinds, seen, c, x);
      StepKeepsHeir(r1, r2, kinds, seen, c, x);
      StepKeepsHeir(r2, r, kinds, seen, c, x);
    } else {
      VisitGroupStep(st, kinds, seen, c);
      StepKeepsHeir(st, r, kinds, seen, c, x);
    }
  }

  /** Where at most one conversation goes, into one that is there, an heir that is there is followed by one. */
  lemma AbsorbsKeepsHeir(st: State, r: State, x: Id)
    requires Absorbs(st, r) && NoDuplicates(st.list) && Heir(st.merges, x) in st.list
    ensures Heir(r.merges, x) in r.list && NoDuplicates(r.list) && forall y <- r.list :: y in st.list
  {
    if !(r.list == st.list && r.merges == st.merges) {
      var current, obsolete :| Combined(st, r, current, obsolete) && current in st.list && current != obsolete;
      WithoutMember(st.list, obsolete);
      HeirAfterMerge(st.merges, Merge(current, obsolete), x);
    }
  }

  /** While `c` is visited and only `d` is its rival, heirs stay among the two. */
  lemma StepKeepsAmong(st: State, r: State, kinds: Kinds, seen: set<Id>, c: Id, d: Id, x: Id)
    requires Known(st, kinds) && c in kinds && Step(st, r, kinds, seen, c) && Heir(st.merges, x) in {c, d}
    requires forall y :: y in seen && y in kinds && Linked(kinds, st.contacts, c, y) ==> y == d
    ensures Heir(r.merges, x) in {c, d}
  {
    if !(r.list == st.list && r.merges == st.merges) {
      var current, obsolete :| Fair(st, kinds, seen, c, current, obsolete) && Combined(st, r, current, obsolete);
      HeirAfterMerge(st.merges, Merge(current, obsolete), x);
    }
  }

  // ---------------------------------------------------------------- the visit of the second of the two

  /** `c` is visited, `d` is there as it was, and nobody else seen competes with `c`. */
  ghost predicate Meeting(st: State, kinds: Kinds, seen: set<Id>, c: Id, d: Id) {
    && Tracked(st, kinds, seen) && c in kinds && c !in seen && c in st.list && d in seen && d in kinds && d in st.list
    && Linked(kinds, st.contacts, c, d)
    && forall y :: y in seen && y in kinds && Linked(kinds, st.contacts, c, y) ==> y == d
  }

  lemma BothGo(st: State, kinds: Kinds, seen: set<Id>, c: Id, d: Id)
    requires Meeting(st, kinds, seen, c, d) && LoseEachOther(st.contacts[c], st.contacts[d])
    ensures c !in Visit(st, kinds, c).list && d !in Visit(st, kinds, c).list
  {
    var e := st.contacts[c];
    assert HoldsId(st, d, e.pni.value);
    PniTakesIn(st, kinds, seen, c, d);
    if e.serviceId.Some? {
      assert HoldsId(st, d, e.serviceId.value);
      ServiceIdGivesWay(st, kinds, seen, c);
    } else {
      assert HoldsE164(st, d, e.e164.value);
      PhoneGivesWay(st, kinds, seen, c);
    }
  }

  lemma HeirsAmong(st: State, kinds: Kinds, seen: set<Id>, c: Id, d: Id, x: Id)
    requires Meeting(st, kinds, seen, c, d) && Heir(st.merges, x) in {c, d}
    ensures Heir(Visit(st, kinds, c).merges, x) in {c, d}
  {
    if kinds[c].Direct? {
      var r1, r2 := VisitSteps(st, kinds, seen, c);
      StepKeepsAmong(st, r1, kinds, seen, c, d, x);
      StepKeepsAmong(r1, r2, kinds, seen, c, d, x);
      StepKeepsAmong(r2, Visit(st, kinds, c), kinds, seen, c, d, x);
    } else {
      VisitGroupStep(st, kinds, seen, c);
      StepKeepsAmong(st, Visit(st, kinds, c), kinds, seen, c, d, x);
    }
  }

  /** The entries that the visited contact finds are its rival. */
  lemma OnlyEntry(st: State, kinds: Kinds, seen: set<Id>, c: Id, d: Id)
    requires Meeting(st, kinds, seen, c, d)
    ensures forall v :: v in st.byServiceId && st.contacts[c].Holds(v) ==>
        st.byServiceId[v] == d && st.contacts[d].Holds(v)
    ensures forall e :: e in st.byE164 && st.contacts[c].e164 == Some(e) ==>
              st.byE164[e] == d && st.contacts[d].e164 == Some(e)
  {
    forall v | v in st.byServiceId && st.contacts[c].Holds(v)
      ensures st.byServiceId[v] == d && st.contacts[d].Holds(v)
    {
      assert HoldsId(st, st.byServiceId[v], v) && Shares(st.contacts[c], st.contacts[st.byServiceId[v]]);
    }
    forall e | e in st.byE164 && st.contacts[c].e164 == Some(e)
      ensures st.byE164[e] == d && st.contacts[d].e164 == Some(e)
    {
      assert HoldsE164(st, st.byE164[e], e) && Shares(st.contacts[c], st.contacts[st.byE164[e]]);
    }
  }

  lemma CombineAbsorbsOrNot(st: State, r: State, kinds: Kinds, current: Id, obsolete: Id)
    requires current in kinds && obsolete in kinds && current != obsolete
    requires current in st.list || obsolete !in st.list
    requires var u := Combine(st, kinds, current, obsolete); r.list == u.list && r.merges == u.merges
    ensures Absorbs(st, r)
  {
    if current in st.list { CombineAbsorbs(st, r, kinds, current, obsolete); }
  }

  /** Phase one: one of the two stays, and it is the visited one if that has a phone number. */
  lemma FirstPhase(st: State, kinds: Kinds, seen: set<Id>, c: Id, d: Id)
    requires Meeting(st, kinds, seen, c, d)
    ensures
      var r, e := CheckServiceId(st, kinds, c), st.contacts[c];
      && Absorbs(st, r)
      && (c in r.list || (e.serviceId.Some? && e.e164.None? && st.contacts[d].Holds(e.serviceId.value)))
      && (d in r.list || (e.serviceId.Some? && e.e164.Some? && c in r.list))
      && r.contacts == st.contacts && r.byE164 == st.byE164
      && (forall v :: v in r.byServiceId && st.contacts[c].Holds(v) ==>
            r.byServiceId[v] == c || (r.byServiceId[v] == d && st.contacts[d].Holds(v)))
  {
    var r, v := CheckServiceId(st, kinds, c), st.contacts[c].serviceId;
    OnlyEntry(st, kinds, seen, c, d);
    WithoutMember(st.list, c);
    WithoutMember(st.list, d);
    if v.Some? && v.value in st.byServiceId {
      if st.contacts[c].e164.Some? { CombineAbsorbs(st, r, kinds, c, d); } else { CombineAbsorbs(st, r, kinds, d, c); }
    }
  }

  /** Phase two takes `d` in, which loses nobody if `c` is still there. */
  lemma SecondPhase(st: State, kinds: Kinds, c: Id, d: Id)
    requires Known(st, kinds) && NoDuplicates(st.list) && c in kinds && d in kinds && c != d
    requires forall v :: v in st.byServiceId && st.contacts[c].Holds(v) ==>
               st.byServiceId[v] == c || (st.byServiceId[v] == d && st.contacts[d].Holds(v))
    requires c in st.list || (st.contacts[c].pni.Some? ==> !st.contacts[d].Holds(st.contacts[c].pni.value))
    ensures
      var r, p := CheckPni(st, kinds, c), st.contacts[c].pni;
      && Absorbs(st, r) && (c in st.list ==> c in r.list)
      && (d in st.list ==> d in r.list || (p.Some? && st.contacts[d].Holds(p.value)))
      && r.contacts == st.contacts && r.byE164 == st.byE164
  {
    var r, v := CheckPni(st, kinds, c), st.contacts[c].pni;
    if v.Some? && v.value in st.byServiceId && st.byServiceId[v.value] != c {
      CombineAbsorbsOrNot(st, r, kinds, c, d);
      if d in st.list { WithoutMember(st.list, d); }
    }
  }

  lemma ThirdPhase(st: State, kinds: Kinds, c: Id, d: Id)
    requires Known(st, kinds) && c in kinds && d in kinds && c != d
    requires forall e :: e in st.byE164 && st.contacts[c].e164 == Some(e) ==>
               st.byE164[e] == d && st.contacts[d].e164 == Some(e)
    requires
      var e := st.contacts[c];
      if e.serviceId.Some? then e.e164.Some? ==> c in st.list
      else e.e164.Some? && e.e164 == st.contacts[d].e164 ==> d in st.list || c !in st.list
    ensures Absorbs(st, CheckE164(st, kinds, c))
  {
    var r, e := CheckE164(st, kinds, c), st.contacts[c].e164;
    if e.Some? && e.value in st.byE164 && !Dropping(st, c) {
      if st.contacts[c].serviceId.Some? {
        CombineAbsorbsOrNot(st, r, kinds, c, d);
      } else {
        CombineAbsorbsOrNot(st, r, kinds, d, c);
      }
    }
  }

  lemma OneStays(st: State, kinds: Kinds, seen: set<Id>, c: Id, d: Id, x: Id)
    requires Meeting(st, kinds, seen, c, d) && !LoseEachOther(st.contacts[c], st.contacts[d])
    requires Heir(st.merges, x) in st.list
    ensures Heir(Visit(st, kinds, c).merges, x) in Visit(st, kinds, c).list
  {
    var r := Visit(st, kinds, c);
    if !kinds[c].Direct? {
      assert st.contacts[c].Bare() && r == CheckGroup(st, kinds, c);
      GroupAbsorbs(st, kinds, seen, c);
      AbsorbsKeepsHeir(st, r, x);
      return;
    }
    var r1 := CheckServiceId(st, kinds, c);
    var r2 := CheckPni(r1, kinds, c);
    assert r == CheckE164(r2, kinds, c);
    FirstPhase(st, kinds, seen, c, d);
    AbsorbsKeepsHeir(st, r1, x);
    SecondPhase(r1, kinds, c, d);
    AbsorbsKeepsHeir(r1, r2, x);
    OnlyEntry(st, kinds, seen, c, d);
    ThirdPhase(r2, kinds, c, d);
    AbsorbsKeepsHeir(r2, r, x);
  }

  // ---------------------------------------------------------------- before and after

  /** The conversation is there as it was loaded. */
  predicate AsLoaded(st: State, contacts: map<Id, Contact>, x: Id) {
    x in st.list && x in st.contacts && x in contacts && st.contacts[x] == contacts[x]
  }

  lemma Untouched(list: seq<Id>, kinds: Kinds, contacts: map<Id, Contact>, st: State, seen: set<Id>, c: Id, x: Id)
    requires Visiting(list, kinds, contacts, st, seen, c) && x in kinds && x in st.list && c != x
    requires !Linked(kinds, contacts, c, x)
    ensures x in Visit(st, kinds, c).list && Visit(st, kinds, c).contacts[x] == st.contacts[x]
  {
    OtherIsHarmless(st, kinds, contacts, seen, c, x);
    VisitSafe(st, kinds, seen, c, x);
  }

  /** A conversation that is visited without rivals changes nothing for the two. */
  lemma OtherVisit(
    list: seq<Id>, kinds: Kinds, contacts: map<Id, Contact>, i: nat, j: nat, m: nat, x: Id)
    returns (st: State)
    requires Pair(list, kinds, contacts, i, j) && m < |list| && m != i && m != j && (x == list[i] || x == list[j])
    ensures Visiting(list, kinds, contacts, st, Elements(list[m + 1..]), list[m])
    ensures st == StateAt(list, kinds, contacts, m + 1)
    ensures StateAt(list, kinds, contacts, m) == Visit(st, kinds, list[m])
    ensures x in st.list <==> x in Visit(st, kinds, list[m]).list
    ensures AsLoaded(st, contacts, x) ==> AsLoaded(Visit(st, kinds, list[m]), contacts, x)
  {
    st := Moment(list, kinds, contacts, m);
    StateNext(list, kinds, contacts, m);
    VisitShrinks(st, kinds, list[m]);
    LinkedSymmetric(kinds, contacts, x, list[m]);
    if x in st.list { Untouched(list, kinds, contacts, st, Elements(list[m + 1..]), list[m], x); }
  }

  lemma WaitsOn(list: seq<Id>, kinds: Kinds, contacts: map<Id, Contact>, i: nat, j: nat, m: nat)
    requires Pair(list, kinds, contacts, i, j) && i < m < j
    requires AsLoaded(StateAt(list, kinds, contacts, m + 1), contacts, list[j])
    ensures AsLoaded(StateAt(list, kinds, contacts, m), contacts, list[j])
  {
    var st := OtherVisit(list, kinds, contacts, i, j, m, list[j]);
  }

  /** Until the later one is visited the earlier one is there as it was. */
  lemma {:induction false} EarlierWaits(list: seq<Id>, kinds: Kinds, contacts: map<Id, Contact>, i: nat, j: nat, m: nat)
    requires Pair(list, kinds, contacts, i, j) && i < m <= j
    ensures AsLoaded(StateAt(list, kinds, contacts, m), contacts, list[j])
    decreases j - m
  {
    if m < j {
      EarlierWaits(list, kinds, contacts, i, j, m + 1);
      WaitsOn(list, kinds, contacts, i, j, m);
    } else {
      EarlierEnters(list, kinds, contacts, i, j);
    }
  }

  lemma EarlierEnters(list: seq<Id>, kinds: Kinds, contacts: map<Id, Contact>, i: nat, j: nat)
    requires Pair(list, kinds, contacts, i, j)
    ensures AsLoaded(StateAt(list, kinds, contacts, j), contacts, list[j])
  {
    var st := Moment(list, kinds, contacts, j);
    StateNext(list, kinds, contacts, j);
    NoneBehind(list, kinds, contacts, i, j);
    EntersAlone(list, kinds, contacts, st, Elements(list[j + 1..]), list[j]);
  }

  lemma EntersAlone(list: seq<Id>, kinds: Kinds, contacts: map<Id, Contact>, st: State, seen: set<Id>, c: Id)
    requires Visiting(list, kinds, contacts, st, seen, c)
    requires forall y :: y in seen && y in kinds ==> !Linked(kinds, contacts, c, y)
    ensures AsLoaded(Visit(st, kinds, c), contacts, c)
  {
    OwnVisitIsHarmless(st, kinds, contacts, seen, c);
    VisitSafe(st, kinds, seen, c, c);
  }

  lemma NoneBehind(list: seq<Id>, kinds: Kinds, contacts: map<Id, Contact>, i: nat, j: nat)
    requires Pair(list, kinds, contacts, i, j)
    ensures forall y :: y in Elements(list[j + 1..]) && y in kinds ==> !Linked(kinds, contacts, list[j], y)
  {
    forall y | y in list[j + 1..] && y in kinds
      ensures !Linked(kinds, contacts, list[j], y)
    {
      var k :| j + 1 <= k < |list| && list[k] == y;
    }
  }

  lemma TheyMeet(list: seq<Id>, kinds: Kinds, contacts: map<Id, Contact>, i: nat, j: nat) returns (st: State)
    requires Pair(list, kinds, contacts, i, j)
    ensures st == StateAt(list, kinds, contacts, i + 1)
    ensures Meeting(st, kinds, Elements(list[i + 1..]), list[i], list[j])
    ensures st.contacts[list[i]] == contacts[list[i]] && st.contacts[list[j]] == contacts[list[j]]
    ensures Heir(st.merges, list[i]) == list[i] && Heir(st.merges, list[j]) == list[j]
    ensures StateAt(list, kinds, contacts, i) == Visit(st, kinds, list[i])
  {
    st := Moment(list, kinds, contacts, i);
    EarlierWaits(list, kinds, contacts, i, j, i + 1);
    StateNext(list, kinds, contacts, i);
    NobodyElse(list, kinds, contacts, i, j, st);
    OwnHeirs(list, kinds, contacts, i, list[i]);
    OwnHeirs(list, kinds, contacts, i, list[j]);
  }

  /** Who is there has not been combined away. */
  lemma OwnHeirs(list: seq<Id>, kinds: Kinds, contacts: map<Id, Contact>, i: nat, x: Id)
    requires Checkable(list, kinds, contacts) && i < |list| && x in StateAt(list, kinds, contacts, i + 1).list
    ensures Heir(StateAt(list, kinds, contacts, i + 1).merges, x) == x
  {
    var st := StateAt(list, kinds, contacts, i + 1);
    assert list[..i + 1] + list[i + 1..] == list;
    var seen := Halfway(list, kinds, contacts, list[..i + 1], list[i + 1..]);
    ListedIsNotObsolete(st, list, x);
    HeirOfListed(st.merges, x);
  }

  lemma NobodyElse(list: seq<Id>, kinds: Kinds, contacts: map<Id, Contact>, i: nat, j: nat, st: State)
    requires Pair(list, kinds, contacts, i, j)
    requires Visiting(list, kinds, contacts, st, Elements(list[i + 1..]), list[i])
    requires AsLoaded(st, contacts, list[j])
    ensures Meeting(st, kinds, Elements(list[i + 1..]), list[i], list[j]) && st.contacts[list[i]] == contacts[list[i]]
  {
    assert list[j] in list[i + 1..];
    forall y | y in Elements(list[i + 1..]) && y in kinds && Linked(kinds, st.contacts, list[i], y)
      ensures y == list[j]
    {
      assert Linked(kinds, contacts, list[i], y);
      var k :| i + 1 <= k < |list| && list[k] == y;
    }
  }

  /** What holds of the two once both are visited. */
  ghost predicate Decided(st: State, c: Id, d: Id, lost: bool) {
    && Heir(st.merges, c) in {c, d} && Heir(st.merges, d) in {c, d}
    && if lost then c !in st.list && d !in st.list
       else Heir(st.merges, c) in st.list && Heir(st.merges, d) in st.list
  }

  lemma {:induction false} StaysDecided(list: seq<Id>, kinds: Kinds, contacts: map<Id, Contact>, i: nat, j: nat, m: nat)
    requires Pair(list, kinds, contacts, i, j) && m <= i
    ensures Decided(StateAt(list, kinds, contacts, m), list[i], list[j],
                    LoseEachOther(contacts[list[i]], contacts[list[j]]))
    decreases i - m
  {
    var c, d := list[i], list[j];
    if m == i {
      var st := TheyMeet(list, kinds, contacts, i, j);
      var seen := Elements(list[i + 1..]);
      HeirsAmong(st, kinds, seen, c, d, c);
      HeirsAmong(st, kinds, seen, c, d, d);
      if LoseEachOther(contacts[c], contacts[d]) {
        BothGo(st, kinds, seen, c, d);
      } else {
        OneStays(st, kinds, seen, c, d, c);
        OneStays(st, kinds, seen, c, d, d);
      }
    } else {
      StaysDecided(list, kinds, contacts, i, j, m + 1);
      var st := OtherVisit(list, kinds, contacts, i, j, m, c);
      var st' := OtherVisit(list, kinds, contacts, i, j, m, d);
      VisitKeepsHeir(st, kinds, Elements(list[m + 1..]), list[m], c);
      VisitKeepsHeir(st, kinds, Elements(list[m + 1..]), list[m], d);
    }
  }

  /**
   Of two conversations that are rivals only of each other both are lost exactly if the one visited
   later has a PNI of the other, and a service id or a phone number of the other but not both kinds;
   otherwise the data of both is with one of them that is left.
   */
  lemma BothLostIff(list: seq<Id>, kinds: Kinds, contacts: map<Id, Contact>, i: nat, j: nat)
    requires Pair(list, kinds, contacts, i, j)
    ensures
      var r := Check(list, kinds, contacts);
      var lost := LoseEachOther(contacts[list[i]], contacts[list[j]]);
      && (list[i] !in r.list && list[j] !in r.list <==> lost)
      && (Heir(r.merges, list[i]) in r.list <==> !lost) && (Heir(r.merges, list[j]) in r.list <==> !lost)
  {
    StaysDecided(list, kinds, contacts, i, j, 0);
    assert list[0..] == list;
  }
}
