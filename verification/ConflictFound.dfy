/** Which survivors of the conflict check are found by their identifiers, if the tables were filled from the list. */
module ConflictFound {
  import opened Wrappers
  import opened Lists
  import opened ContactBook
  import opened ContactMerge
  import opened ConflictRules
  import opened ConflictProofs
  import opened ConflictResult
  import opened ConflictTwins
  import opened ConflictTables

  // ---------------------------------------------------------------- what later visits leave

  /** Lists only shrink, and of the attributes only phone numbers are ever dropped. */
  ghost predicate Later(st: State, r: State) {
    && (forall y <- r.list :: y in st.list) && r.contacts.Keys == st.contacts.Keys
    && forall y :: y in st.contacts ==>
         r.contacts[y] == st.contacts[y] || r.contacts[y] == st.contacts[y].(e164 := None)
  }

  lemma VisitNumbers(st: State, kinds: Kinds, c: Id)
    requires Known(st, kinds) && c in kinds
    ensures Visit(st, kinds, c).contacts.Keys == st.contacts.Keys
    ensures forall y :: y in st.contacts ==>
              var d := Visit(st, kinds, c).contacts[y];
              d == st.contacts[y] || d == st.contacts[y].(e164 := None)
  {
    var r1 := CheckServiceId(st, kinds, c);
    var r2 := CheckPni(r1, kinds, c);
    var r3 := CheckE164(r2, kinds, c);
    ServiceIdFrame(st, kinds, c);
    PniFrame(r1, kinds, c);
    PhoneNumbers(r2, kinds, c);
    GroupFrame(r3, kinds, c);
    assert Visit(st, kinds, c) == r3 || Visit(st, kinds, c) == CheckGroup(r3, kinds, c);
  }

  lemma PhoneNumbers(st: State, kinds: Kinds, c: Id)
    requires Known(st, kinds) && c in kinds
    ensures CheckE164(st, kinds, c).contacts.Keys == st.contacts.Keys
    ensures forall y :: y in st.contacts ==>
              var d := CheckE164(st, kinds, c).contacts[y];
              d == st.contacts[y] || d == st.contacts[y].(e164 := None)
  {}

  lemma VisitLater(st: State, kinds: Kinds, c: Id)
    requires Known(st, kinds) && c in kinds
    ensures Later(st, Visit(st, kinds, c))
  {
    VisitShrinks(st, kinds, c);
    VisitNumbers(st, kinds, c);
  }

  lemma LaterOn(a: State, b: State, c: State)
    requires Later(a, b) && Later(b, c)
    ensures Later(a, c)
  {}

  lemma {:induction false} VisitsLater(st: State, kinds: Kinds, todo: seq<Id>, done: seq<Id>)
    requires Known(st, kinds) && (forall c <- todo :: c in kinds) && (forall c <- done :: c in kinds)
    ensures Later(Visits(st, kinds, done), Visits(st, kinds, todo + done))
    decreases |todo|
  {
    if todo == [] {
      assert todo + done == done;
    } else {
      var rest := todo[1..] + done;
      assert (todo + done)[1..] == rest && (todo + done)[0] == todo[0];
      VisitsLater(st, kinds, todo[1..], done);
      VisitLater(Visits(st, kinds, rest), kinds, todo[0]);
      LaterOn(Visits(st, kinds, done), Visits(st, kinds, rest), Visits(st, kinds, todo + done));
    }
  }

  /** Halfway, when the conversations from position `n` on have been visited. */
  function StateAt(list: seq<Id>, kinds: Kinds, contacts: map<Id, Contact>, n: nat): (r: State)
    requires contacts.Keys == kinds.Keys && (forall c <- list :: c in kinds) && n <= |list|
    ensures Known(r, kinds)
  {
    Visits(Initial(list, contacts), kinds, list[n..])
  }

  lemma StateNext(list: seq<Id>, kinds: Kinds, contacts: map<Id, Contact>, n: nat)
    requires contacts.Keys == kinds.Keys && (forall c <- list :: c in kinds) && n < |list|
    ensures StateAt(list, kinds, contacts, n) == Visit(StateAt(list, kinds, contacts, n + 1), kinds, list[n])
  {
    assert list[n..][0] == list[n] && list[n..][1..] == list[n + 1..];
  }

  lemma FromThereOn(list: seq<Id>, kinds: Kinds, contacts: map<Id, Contact>, n: nat)
    requires contacts.Keys == kinds.Keys && (forall c <- list :: c in kinds) && n <= |list|
    ensures Later(StateAt(list, kinds, contacts, n), Check(list, kinds, contacts))
  {
    assert list[..n] + list[n..] == list;
    VisitsLater(Initial(list, contacts), kinds, list[..n], list[n..]);
  }

  /** The moment at which the conversation at position `n` is visited, and the end. */
  lemma Moment(list: seq<Id>, kinds: Kinds, contacts: map<Id, Contact>, n: nat) returns (st: State)
    requires Checkable(list, kinds, contacts) && n < |list|
    ensures st == StateAt(list, kinds, contacts, n + 1)
    ensures Visiting(list, kinds, contacts, st, Elements(list[n + 1..]), list[n])
    ensures Later(Visit(st, kinds, list[n]), Check(list, kinds, contacts))
  {
    st := StateAt(list, kinds, contacts, n + 1);
    SplitAt(list, n);
    VisitingNext(list, kinds, contacts, list[..n], list[n], list[n + 1..]);
    StateNext(list, kinds, contacts, n);
    FromThereOn(list, kinds, contacts, n);
  }

  // ---------------------------------------------------------------- who goes at a visit

  /** The entries a visited contact meets under its own identifiers are contacts too. */
  lemma EntriesAreDirect(st: State, kinds: Kinds, seen: set<Id>, c: Id)
    requires Tracked(st, kinds, seen) && c in kinds && !st.contacts[c].Bare()
    ensures kinds[c].Direct?
    ensures forall v :: v in st.byServiceId ==> kinds[st.byServiceId[v]].Direct?
    ensures forall e :: e in st.byE164 ==> kinds[st.byE164[e]].Direct?
  {
    forall v | v in st.byServiceId
      ensures kinds[st.byServiceId[v]].Direct?
    {
      assert HoldsId(st, st.byServiceId[v], v);
    }
    forall e | e in st.byE164
      ensures kinds[st.byE164[e]].Direct?
    {
      assert HoldsE164(st, st.byE164[e], e);
    }
  }

  /** With a service id and a phone number it takes in whoever holds the service id. */
  lemma ServiceIdTakes(st: State, kinds: Kinds, seen: set<Id>, c: Id, y: Id)
    requires Tracked(st, kinds, seen) && c in kinds && c !in seen && y in seen && y in st.list
    requires st.contacts[c].serviceId.Some? && st.contacts[c].e164.Some?
    requires HoldsId(st, y, st.contacts[c].serviceId.value)
    ensures y !in Visit(st, kinds, c).list
  {
    EntriesAreDirect(st, kinds, seen, c);
    CombineShrinks(st, kinds, c, y);
    GoneAfterVisit(st, kinds, c, y);
  }

  /** Without a phone number it gives way if somebody was seen with the service id. */
  lemma ServiceIdGivesWay(st: State, kinds: Kinds, seen: set<Id>, c: Id)
    requires Tracked(st, kinds, seen) && c in kinds && c !in seen
    requires st.contacts[c].serviceId.Some? && st.contacts[c].e164.None?
    requires st.contacts[c].serviceId.value in st.byServiceId
    ensures c !in Visit(st, kinds, c).list
  {
    EntriesAreDirect(st, kinds, seen, c);
    ServiceIdYields(st, kinds, c);
    GoneAfterVisit(st, kinds, c, c);
  }

  /** With a PNI it takes in whoever holds that. */
  lemma PniTakesIn(st: State, kinds: Kinds, seen: set<Id>, c: Id, y: Id)
    requires Tracked(st, kinds, seen) && c in kinds && c !in seen && y in seen && y in kinds && y in st.list
    requires st.contacts[c].pni.Some? && HoldsId(st, y, st.contacts[c].pni.value)
    ensures y !in Visit(st, kinds, c).list
  {
    EntriesAreDirect(st, kinds, seen, c);
    HolderIsDirect(st, kinds, y);
    var r := CheckServiceId(st, kinds, c);
    ServiceIdPhase(st, kinds, seen, c);
    if y in r.list {
      assert HoldsId(r, y, st.contacts[c].pni.value);
      PniTakes(r, kinds, c, y);
    }
    GoneAfterVisit(st, kinds, c, y);
  }

  /** What the first two phases leave to the third. */
  lemma BeforePhone(st: State, kinds: Kinds, seen: set<Id>, c: Id) returns (m: State)
    requires Tracked(st, kinds, seen) && c in kinds && c !in seen && kinds[c].Direct?
    ensures Known(m, kinds) && Visit(st, kinds, c) == CheckE164(m, kinds, c)
    ensures m.contacts == st.contacts && m.byE164 == st.byE164 && forall y <- m.list :: y in st.list
    ensures m == CheckPni(CheckServiceId(st, kinds, c), kinds, c)
  {
    var r1 := CheckServiceId(st, kinds, c);
    m := CheckPni(r1, kinds, c);
    ServiceIdFrame(st, kinds, c);
    PniFrame(r1, kinds, c);
    PhasesShrink(st, kinds, c);
    PhasesShrink(r1, kinds, c);
  }

  /** With a service id it takes in whoever has its phone number, or takes the number. */
  lemma PhoneTakes(st: State, kinds: Kinds, seen: set<Id>, c: Id, y: Id)
    requires Tracked(st, kinds, seen) && c in kinds && c !in seen && y in seen && y in kinds && y in st.list
    requires st.contacts[c].serviceId.Some? && st.contacts[c].e164.Some? && st.contacts[y].e164 == st.contacts[c].e164
    ensures var r := Visit(st, kinds, c); y !in r.list || r.contacts[y].e164.None?
  {
    EntriesAreDirect(st, kinds, seen, c);
    assert HoldsE164(st, y, st.contacts[c].e164.value);
    var m := BeforePhone(st, kinds, seen, c);
    if !Dropping(m, c) { CombineShrinks(m, kinds, c, y); }
  }

  /** Without one it gives way if somebody was seen with the number. */
  lemma PhoneGivesWay(st: State, kinds: Kinds, seen: set<Id>, c: Id)
    requires Tracked(st, kinds, seen) && c in kinds && c !in seen
    requires st.contacts[c].serviceId.None? && st.contacts[c].e164.Some? && st.contacts[c].e164.value in st.byE164
    ensures c !in Visit(st, kinds, c).list
  {
    EntriesAreDirect(st, kinds, seen, c);
    var m := BeforePhone(st, kinds, seen, c);
    PhoneYields(m, kinds, c);
  }

  /** A group gives way to one seen of its own kind. */
  lemma GroupGivesWay(st: State, kinds: Kinds, seen: set<Id>, c: Id, w: Id)
    requires Tracked(st, kinds, seen) && c in kinds && c !in seen && w in seen && w in kinds && kinds[w] == kinds[c]
    requires !kinds[c].Direct? && GroupOf(st, kinds, c).Some? && GroupOf(st, kinds, w) == GroupOf(st, kinds, c)
    ensures c !in Visit(st, kinds, c).list
  {
    var d := st.byGroupV2Id[GroupOf(st, kinds, c).value];
    assert GroupOf(st, kinds, d) == GroupOf(st, kinds, c) && !kinds[d].Direct?;
    assert st.contacts[c].Bare() && Visit(st, kinds, c) == CheckGroup(st, kinds, c);
    CombineShrinks(st, kinds, d, c);
  }

  // ---------------------------------------------------------------- keys of those seen

  /** The service ids and phone numbers of those seen stay keys of the tables. */
  ghost predicate KeysSeen(contacts: map<Id, Contact>, st: State, seen: seq<Id>) {
    forall y <- seen :: y in contacts
      && (contacts[y].serviceId.Some? ==> contacts[y].serviceId.value in st.byServiceId)
      && (contacts[y].e164.Some? ==> contacts[y].e164.value in st.byE164)
  }

  lemma {:induction false} KeysStay(
    list: seq<Id>, kinds: Kinds, contacts: map<Id, Contact>, todo: seq<Id>, done: seq<Id>)
    requires Checkable(list, kinds, contacts) && todo + done == list
    ensures KeysSeen(contacts, Visits(Initial(list, contacts), kinds, done), done)
    decreases |done|
  {
    if done != [] {
      var c, before := done[0], done[1..];
      assert todo + [c] + before == list;
      var st := Visits(Initial(list, contacts), kinds, before);
      KeysStay(list, kinds, contacts, todo + [c], before);
      VisitingNext(list, kinds, contacts, todo, c, before);
      assert st.contacts[c] == contacts[c];
      VisitKeys(st, kinds, c);
      assert done == [c] + before;
    }
  }

  lemma KeysOfLater(list: seq<Id>, kinds: Kinds, contacts: map<Id, Contact>, m: nat, n: nat)
    requires Checkable(list, kinds, contacts) && m < n < |list|
    ensures
      var st, w := StateAt(list, kinds, contacts, m + 1), contacts[list[n]];
      && (w.serviceId.Some? ==> w.serviceId.value in st.byServiceId)
      && (w.e164.Some? ==> w.e164.value in st.byE164)
  {
    assert list[..m + 1] + list[m + 1..] == list && list[n] in list[m + 1..];
    KeysStay(list, kinds, contacts, list[..m + 1], list[m + 1..]);
  }

  // ---------------------------------------------------------------- survivors and entries

  /** The entry under a value of a survivor, and where the two stand. */
  lemma EntryAndSurvivor(list: seq<Id>, kinds: Kinds, contacts: map<Id, Contact>, slot: Slot, x: Id)
    returns (w: Id, n: nat, m: nat)
    requires Checkable(list, kinds, contacts) && x in Check(list, kinds, contacts).list
    requires x in contacts && contacts[x].Get(slot).Some?
    ensures m < |list| && list[m] == x
    ensures
      var t, v := Loaded(list, contacts).Index(slot), contacts[x].Get(slot).value;
      v in t && t[v] == w && EntryAt(list, contacts, slot, v, w, n)
  {
    LoadedIsRight(list, contacts, slot);
    ListedInitially(list, kinds, contacts, x);
    m :| 0 <= m < |list| && list[m] == x;
    var v := contacts[x].Get(slot).value;
    w := Loaded(list, contacts).Index(slot)[v];
    n :| EntryAt(list, contacts, slot, v, w, n);
  }

  lemma ListedInitially(list: seq<Id>, kinds: Kinds, contacts: map<Id, Contact>, x: Id)
    requires Checkable(list, kinds, contacts) && x in Check(list, kinds, contacts).list
    ensures x in list
  {
    EveryoneAccounted(list, kinds, contacts);
    ListedBefore(Check(list, kinds, contacts), list, x);
  }

  /** A survivor is the entry of its service id. */
  lemma ServiceIdFound(list: seq<Id>, kinds: Kinds, contacts: map<Id, Contact>, x: Id)
    requires Checkable(list, kinds, contacts) && x in Check(list, kinds, contacts).list
    requires x in contacts && contacts[x].serviceId.Some?
    ensures var t, v := Loaded(list, contacts).byServiceId, contacts[x].serviceId.value; v in t && t[v] == x
  {
    var w, n, m := EntryAndSurvivor(list, kinds, contacts, ServiceIdSlot, x);
    if n < m { EarlierServiceIdGoes(list, kinds, contacts, w, n, x, m); }
    if m < n { LaterServiceIdGoes(list, kinds, contacts, w, n, x, m); }
  }

  lemma BehindIsSeen(list: seq<Id>, n: nat, m: nat)
    requires n < m < |list|
    ensures list[m] in list[n + 1..] && list[m] in Elements(list[n + 1..])
  {
    assert list[n + 1..][m - n - 1] == list[m];
  }

  lemma EarlierServiceIdGoes(list: seq<Id>, kinds: Kinds, contacts: map<Id, Contact>, w: Id, n: nat, x: Id, m: nat)
    requires Checkable(list, kinds, contacts) && n < m < |list| && list[n] == w && list[m] == x
    requires contacts[x].serviceId.Some? && contacts[w].serviceId == contacts[x].serviceId && contacts[w].e164.Some?
    ensures x !in Check(list, kinds, contacts).list
  {
    var st := Moment(list, kinds, contacts, n);
    if x in st.list {
      BehindIsSeen(list, n, m);
      assert HoldsId(st, x, contacts[x].serviceId.value) && st.contacts[w] == contacts[w];
      ServiceIdTakes(st, kinds, Elements(list[n + 1..]), w, x);
    }
    VisitShrinks(st, kinds, w);
  }

  lemma LaterServiceIdGoes(list: seq<Id>, kinds: Kinds, contacts: map<Id, Contact>, w: Id, n: nat, x: Id, m: nat)
    requires Checkable(list, kinds, contacts) && m < n < |list| && list[n] == w && list[m] == x
    requires contacts[x].serviceId.Some? && contacts[w].serviceId == contacts[x].serviceId && contacts[x].e164.None?
    ensures x !in Check(list, kinds, contacts).list
  {
    var st := Moment(list, kinds, contacts, m);
    KeysOfLater(list, kinds, contacts, m, n);
    assert st.contacts[x] == contacts[x];
    ServiceIdGivesWay(st, kinds, Elements(list[m + 1..]), x);
  }

  /** A survivor that kept its phone number is the entry of that. */
  lemma PhoneFound(list: seq<Id>, kinds: Kinds, contacts: map<Id, Contact>, x: Id)
    requires Checkable(list, kinds, contacts) && x in Check(list, kinds, contacts).list
    requires x in contacts && contacts[x].e164.Some?
    requires x in Check(list, kinds, contacts).contacts && Check(list, kinds, contacts).contacts[x].e164.Some?
    ensures var t, v := Loaded(list, contacts).byE164, contacts[x].e164.value; v in t && t[v] == x
  {
    var w, n, m := EntryAndSurvivor(list, kinds, contacts, E164Slot, x);
    if n < m { EarlierPhoneGoes(list, kinds, contacts, w, n, x, m); }
    if m < n { LaterPhoneGoes(list, kinds, contacts, w, n, x, m); }
  }

  lemma EarlierPhoneGoes(list: seq<Id>, kinds: Kinds, contacts: map<Id, Contact>, w: Id, n: nat, x: Id, m: nat)
    requires Checkable(list, kinds, contacts) && n < m < |list| && list[n] == w && list[m] == x
    requires contacts[x].e164.Some? && contacts[w].e164 == contacts[x].e164 && contacts[w].serviceId.Some?
    ensures
      var r := Check(list, kinds, contacts);
      x !in r.list || (x in r.contacts && r.contacts[x].e164.None?)
  {
    var st := Moment(list, kinds, contacts, n);
    BehindIsSeen(list, n, m);
    PhoneGoesNow(list, kinds, contacts, st, Elements(list[n + 1..]), w, x);
  }

  lemma PhoneGoesNow(
    list: seq<Id>, kinds: Kinds, contacts: map<Id, Contact>, st: State, seen: set<Id>, w: Id, x: Id)
    requires Visiting(list, kinds, contacts, st, seen, w) && x in seen
    requires contacts[x].e164.Some? && contacts[w].e164 == contacts[x].e164 && contacts[w].serviceId.Some?
    ensures var r := Visit(st, kinds, w); x !in r.list || (x in r.contacts && r.contacts[x].e164.None?)
  {
    VisitLater(st, kinds, w);
    if x in st.list && st.contacts[x].e164.Some? {
      assert st.contacts[x].e164 == contacts[x].e164 && st.contacts[w] == contacts[w];
      PhoneTakes(st, kinds, seen, w, x);
    }
  }

  lemma LaterPhoneGoes(list: seq<Id>, kinds: Kinds, contacts: map<Id, Contact>, w: Id, n: nat, x: Id, m: nat)
    requires Checkable(list, kinds, contacts) && m < n < |list| && list[n] == w && list[m] == x
    requires contacts[x].e164.Some? && contacts[w].e164 == contacts[x].e164 && contacts[x].serviceId.None?
    ensures x !in Check(list, kinds, contacts).list
  {
    var st := Moment(list, kinds, contacts, m);
    KeysOfLater(list, kinds, contacts, m, n);
    assert st.contacts[x] == contacts[x];
    PhoneGivesWay(st, kinds, Elements(list[m + 1..]), x);
  }

  /** Without a service id, and others were loaded with its PNI. */
  predicate Unfindable(list: seq<Id>, contacts: map<Id, Contact>, x: Id) {
    && x in contacts && contacts[x].pni.Some? && contacts[x].serviceId.None?
    && exists y <- list :: y != x && y in contacts && contacts[y].pni == contacts[x].pni
  }

  /** A survivor is the entry of its PNI exactly if it has a service id or nobody else was loaded with that PNI. */
  lemma PniFoundIff(list: seq<Id>, kinds: Kinds, contacts: map<Id, Contact>, x: Id)
    requires Checkable(list, kinds, contacts) && x in Check(list, kinds, contacts).list
    requires x in contacts && contacts[x].pni.Some?
    ensures
      var t, v := Loaded(list, contacts).byPni, contacts[x].pni.value;
      v in t && (t[v] == x <==> !Unfindable(list, contacts, x))
  {
    var w, n, m := EntryAndSurvivor(list, kinds, contacts, PniSlot, x);
    if w != x {
      if n < m { EarlierPniGoes(list, kinds, contacts, w, n, x, m); }
      assert w in list && contacts[w].pni == contacts[x].pni;
    } else if Unfindable(list, contacts, x) {
      var y :| y in list && y != x && y in contacts && contacts[y].pni == contacts[x].pni;
      var j :| 0 <= j < |list| && list[j] == y;
      assert contacts[y].Get(PniSlot) == contacts[x].pni && j < n;
      EarlierPniGoes(list, kinds, contacts, y, j, x, n);
    }
  }

  lemma EarlierPniGoes(list: seq<Id>, kinds: Kinds, contacts: map<Id, Contact>, w: Id, n: nat, x: Id, m: nat)
    requires Checkable(list, kinds, contacts) && n < m < |list| && list[n] == w && list[m] == x
    requires contacts[x].pni.Some? && contacts[w].pni == contacts[x].pni
    ensures x !in Check(list, kinds, contacts).list
  {
    var st := Moment(list, kinds, contacts, n);
    BehindIsSeen(list, n, m);
    if x in st.list {
      assert HoldsId(st, x, contacts[x].pni.value) && st.contacts[w] == contacts[w];
      PniTakesIn(st, kinds, Elements(list[n + 1..]), w, x);
    }
    VisitShrinks(st, kinds, w);
  }

  /** Groups with one group id are of one kind, and contacts have none. */
  ghost predicate GroupsAgree(kinds: Kinds, contacts: map<Id, Contact>) {
    forall c, d ::
      (&& c in kinds && d in kinds && c in contacts && d in contacts
       && contacts[c].groupId.Some? && contacts[d].groupId == contacts[c].groupId) ==>
        !kinds[c].Direct? && kinds[d] == kinds[c]
  }

  /** A group that survives is the entry of its group id. */
  lemma GroupFound(list: seq<Id>, kinds: Kinds, contacts: map<Id, Contact>, x: Id)
    requires Checkable(list, kinds, contacts) && x in Check(list, kinds, contacts).list && GroupsAgree(kinds, contacts)
    requires x in contacts && contacts[x].groupId.Some?
    ensures var t, v := Loaded(list, contacts).byGroupId, contacts[x].groupId.value; v in t && t[v] == x
  {
    var w, n, m := EntryAndSurvivor(list, kinds, contacts, GroupIdSlot, x);
    if w != x {
      assert contacts[x].Get(GroupIdSlot) == contacts[w].Get(GroupIdSlot) && m < n;
      LaterGroupGoes(list, kinds, contacts, w, n, x, m);
    }
  }

  lemma LaterGroupGoes(list: seq<Id>, kinds: Kinds, contacts: map<Id, Contact>, w: Id, n: nat, x: Id, m: nat)
    requires Checkable(list, kinds, contacts) && m < n < |list| && list[n] == w && list[m] == x
    requires GroupsAgree(kinds, contacts)
    requires contacts[x].groupId.Some? && contacts[w].groupId == contacts[x].groupId
    ensures x !in Check(list, kinds, contacts).list
  {
    var st := Moment(list, kinds, contacts, m);
    assert w in list[m + 1..] && kinds[w] == kinds[x] && !kinds[x].Direct?;
    assert st.contacts[x] == contacts[x] && st.contacts[w].groupId == contacts[w].groupId;
    GroupGivesWay(st, kinds, Elements(list[m + 1..]), x, w);
  }
}
