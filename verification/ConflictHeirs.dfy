/**
 A condition on the conversations under which whatever the conflict check combines away is
 absorbed by somebody who is left.
 */
module ConflictHeirs {
  import opened Wrappers
  import opened Lists
  import opened ContactBook
  import opened ContactMerge
  import opened ConflictRules
  import opened ConflictProofs
  import opened ConflictResult
  import opened ConflictTwins

  /** Where the data of `x` ends up after the merges, one after the other. */
  function Heir(ms: seq<Merge>, x: Id): Id {
    if ms == [] then x
    else
      var h, last := Heir(ms[..|ms| - 1], x), ms[|ms| - 1];
      if h == last.obsolete then last.current else h
  }

  /** Nobody is combined into a conversation that was combined away before. */
  predicate CurrentsListed(ms: seq<Merge>) {
    forall i :: 0 <= i < |ms| ==> ms[i].current !in Obsoletes(ms[..i])
  }

  /** Everybody's data is with somebody who is there. */
  ghost predicate HeirsListed(st: State, all: seq<Id>) {
    CurrentsListed(st.merges) && forall x <- all :: Heir(st.merges, x) in st.list
  }

  /** A contact with a service id or a phone number, but not both, and a PNI. */
  predicate Torn(c: Contact) { c.pni.Some? && c.serviceId.Some? != c.e164.Some? }

  /** A contact with a service id alone or a phone number alone. */
  predicate Single(c: Contact) { c.pni.None? && c.serviceId.Some? != c.e164.Some? }

  ghost predicate Rivals(list: seq<Id>, kinds: Kinds, contacts: map<Id, Contact>, c: Id, d: Id) {
    && c in list && d in list && c != d && c in kinds && d in kinds && c in contacts && d in contacts
    && kinds[c].Direct? && Linked(kinds, contacts, c, d)
  }

  /**
   Contacts with a PNI and just one of service id and phone number have no rivals, and whoever rivals
   a rival of a contact with one identifier is its rival too.
   */
  ghost predicate Settleable(list: seq<Id>, kinds: Kinds, contacts: map<Id, Contact>) {
    && Checkable(list, kinds, contacts)
    && (forall c, d :: Rivals(list, kinds, contacts, c, d) ==> !Torn(contacts[c]))
    && (forall s, c, d ::
          (&& Rivals(list, kinds, contacts, s, c) && Single(contacts[s])
           && Rivals(list, kinds, contacts, c, d) && s != d) ==>
            Rivals(list, kinds, contacts, s, d))
  }

  // ---------------------------------------------------------------- steps that lose nobody

  /** At most one conversation goes, and into one that is there. */
  ghost predicate Absorbs(st: State, r: State) {
    || (r.list == st.list && r.merges == st.merges)
    || exists current, obsolete :: Combined(st, r, current, obsolete) && current in st.list && current != obsolete
  }

  lemma AbsorbsKeepsHeirs(st: State, r: State, all: seq<Id>)
    requires Absorbs(st, r) && HeirsListed(st, all) && Accounted(st, all) && NoDuplicates(all) && NoDuplicates(st.list)
    ensures HeirsListed(r, all)
  {
    if !(r.list == st.list && r.merges == st.merges) {
      var current, obsolete :| Combined(st, r, current, obsolete) && current in st.list && current != obsolete;
      WithoutMember(st.list, obsolete);
      ListedIsNotObsolete(st, all, current);
      var n := |st.merges|;
      assert r.merges[..n] == st.merges;
      forall i | 0 <= i < |r.merges|
        ensures r.merges[i].current !in Obsoletes(r.merges[..i])
      {
        if i < n { assert r.merges[..i] == st.merges[..i]; }
      }
    }
  }

  lemma {:induction false} UniqueCount(s: seq<Id>, x: Id)
    requires NoDuplicates(s)
    ensures multiset(s)[x] <= 1
  {
    if s != [] {
      UniqueCount(s[1..], x);
      assert s == [s[0]] + s[1..];
      assert s[0] !in s[1..];
    }
  }

  lemma ListedIsNotObsolete(st: State, all: seq<Id>, x: Id)
    requires Accounted(st, all) && NoDuplicates(all) && x in st.list
    ensures x !in Obsoletes(st.merges)
  {
    UniqueCount(all, x);
    assert multiset(st.list)[x] >= 1;
    assert x in Obsoletes(st.merges) ==> multiset(Obsoletes(st.merges))[x] >= 1;
  }

  lemma CombineAbsorbs(st: State, r: State, kinds: Kinds, current: Id, obsolete: Id)
    requires current in kinds && obsolete in kinds && current in st.list && current != obsolete
    requires var u := Combine(st, kinds, current, obsolete); r.list == u.list && r.merges == u.merges
    ensures Absorbs(st, r)
  {
    assert (r.list == st.list && r.merges == st.merges) || Combined(st, r, current, obsolete);
  }

  // ---------------------------------------------------------------- visits that lose nobody

  lemma GroupAbsorbs(st: State, kinds: Kinds, seen: set<Id>, c: Id)
    requires Known(st, kinds) && GroupsSound(st, kinds, seen) && GroupsKept(st, kinds, seen)
    requires c in kinds && c !in seen && c in st.list
    ensures Absorbs(st, CheckGroup(st, kinds, c))
  {
    var r := CheckGroup(st, kinds, c);
    var g := GroupV2IdOf(kinds[c], st.contacts[c]);
    if g.Some? && g.value in st.byGroupV2Id {
      var d := st.byGroupV2Id[g.value];
      if kinds[c].GroupV2? && !kinds[d].GroupV2? {
        CombineAbsorbs(st, r, kinds, c, d);
      } else {
        CombineAbsorbs(st, r, kinds, d, c);
      }
    }
  }

  /** With service id and phone number or neither the visited contact always takes the other one in, and stays. */
  lemma ServiceIdAbsorbs(st: State, kinds: Kinds, c: Id)
    requires Known(st, kinds) && c in kinds && c in st.list
    requires st.contacts[c].serviceId.Some? ==> st.contacts[c].e164.Some?
    requires
      var v := st.contacts[c].serviceId;
      v.Some? && v.value in st.byServiceId ==> st.byServiceId[v.value] != c
    ensures Absorbs(st, CheckServiceId(st, kinds, c))
  {
    var v := st.contacts[c].serviceId;
    if v.Some? && v.value in st.byServiceId {
      CombineAbsorbs(st, CheckServiceId(st, kinds, c), kinds, c, st.byServiceId[v.value]);
    }
  }

  lemma PniAbsorbs(st: State, kinds: Kinds, c: Id)
    requires Known(st, kinds) && c in kinds && c in st.list
    ensures Absorbs(st, CheckPni(st, kinds, c))
  {
    var v := st.contacts[c].pni;
    if v.Some? && v.value in st.byServiceId && st.byServiceId[v.value] != c {
      CombineAbsorbs(st, CheckPni(st, kinds, c), kinds, c, st.byServiceId[v.value]);
    }
  }

  lemma PhoneAbsorbs(st: State, kinds: Kinds, c: Id)
    requires Known(st, kinds) && c in kinds && c in st.list
    requires st.contacts[c].e164.Some? ==> st.contacts[c].serviceId.Some?
    requires
      var e := st.contacts[c].e164;
      e.Some? && e.value in st.byE164 ==> st.byE164[e.value] != c
    ensures Absorbs(st, CheckE164(st, kinds, c))
  {
    var e := st.contacts[c].e164;
    if e.Some? && e.value in st.byE164 && !Dropping(st, c) {
      CombineAbsorbs(st, CheckE164(st, kinds, c), kinds, c, st.byE164[e.value]);
    }
  }

  lemma BalancedVisit(st: State, kinds: Kinds, seen: set<Id>, c: Id, all: seq<Id>)
    requires Tracked(st, kinds, seen) && c in kinds && c !in seen && c in st.list && c in all
    requires forall x <- seen :: x in all
    requires kinds[c].Direct? && (st.contacts[c].serviceId.Some? <==> st.contacts[c].e164.Some?)
    requires HeirsListed(st, all) && Accounted(st, all) && NoDuplicates(all)
    ensures HeirsListed(Visit(st, kinds, c), all)
  {
    var r1 := CheckServiceId(st, kinds, c);
    var r2 := CheckPni(r1, kinds, c);
    var r3 := CheckE164(r2, kinds, c);
    assert Visit(st, kinds, c) == r3;
    BalancedPhase1(st, kinds, seen, c, all);
    BalancedPhase2(r1, kinds, seen, c, all);
    PhoneAbsorbs(r2, kinds, c);
    AbsorbsKeepsHeirs(r2, r3, all);
  }

  lemma BalancedPhase1(st: State, kinds: Kinds, seen: set<Id>, c: Id, all: seq<Id>)
    requires Tracked(st, kinds, seen) && c in kinds && c !in seen && c in st.list && c in all
    requires forall x <- seen :: x in all
    requires kinds[c].Direct? && (st.contacts[c].serviceId.Some? <==> st.contacts[c].e164.Some?)
    requires HeirsListed(st, all) && Accounted(st, all) && NoDuplicates(all)
    ensures
      var r := CheckServiceId(st, kinds, c);
      && HeirsListed(r, all) && Accounted(r, all) && NoDuplicates(r.list) && c in r.list && HalfKept(r, seen, c)
      && r.contacts == st.contacts && r.byE164 == st.byE164
  {
    var r := CheckServiceId(st, kinds, c);
    ServiceIdAbsorbs(st, kinds, c);
    AbsorbsKeepsHeirs(st, r, all);
    ServiceIdStep(st, kinds, seen, c);
    StepList(st, r, kinds, seen, c, [], all);
    StepSafe(st, r, kinds, seen, c, c);
    ServiceIdPhase(st, kinds, seen, c);
  }

  lemma PniKeepsVisited(st: State, kinds: Kinds, c: Id)
    requires Known(st, kinds) && c in kinds && c in st.list && NoDuplicates(st.list)
    ensures c in CheckPni(st, kinds, c).list && CheckPni(st, kinds, c).contacts == st.contacts
    ensures CheckPni(st, kinds, c).byE164 == st.byE164
  {
    var v := st.contacts[c].pni;
    if v.Some? && v.value in st.byServiceId && st.byServiceId[v.value] in st.list {
      WithoutMember(st.list, st.byServiceId[v.value]);
    }
  }

  lemma StepAccounts(st: State, r: State, kinds: Kinds, seen: set<Id>, c: Id, all: seq<Id>)
    requires Known(st, kinds) && c in kinds && Step(st, r, kinds, seen, c) && c !in seen && NoDuplicates(st.list)
    requires Accounted(st, all) && c in all && forall x <- seen :: x in all
    ensures Accounted(r, all) && NoDuplicates(r.list)
  {
    StepList(st, r, kinds, seen, c, [], all);
  }

  lemma BalancedPhase2(st: State, kinds: Kinds, seen: set<Id>, c: Id, all: seq<Id>)
    requires Known(st, kinds) && OnlyDirect(kinds, st.contacts) && HalfKept(st, seen, c) && NoDuplicates(st.list)
    requires c in kinds && c !in seen && c in st.list && c in all && (forall x <- seen :: x in all)
    requires HeirsListed(st, all) && Accounted(st, all) && NoDuplicates(all)
    ensures
      var r := CheckPni(st, kinds, c);
      && HeirsListed(r, all) && Accounted(r, all) && NoDuplicates(r.list) && c in r.list
      && r.contacts == st.contacts && r.byE164 == st.byE164
  {
    var r := CheckPni(st, kinds, c);
    PniKeepsVisited(st, kinds, c);
    PniStep(st, kinds, seen, c);
    StepAccounts(st, r, kinds, seen, c, all);
    PniAbsorbs(st, kinds, c);
    AbsorbsKeepsHeirs(st, r, all);
  }

  /** A contact without rivals among those seen changes nothing. */
  lemma UnrivalledVisit(st: State, kinds: Kinds, seen: set<Id>, c: Id)
    requires Tracked(st, kinds, seen) && c in kinds && c !in seen && kinds[c].Direct?
    requires forall d :: d in seen && d in kinds ==> !Linked(kinds, st.contacts, c, d)
    ensures Visit(st, kinds, c).list == st.list && Visit(st, kinds, c).merges == st.merges
  {
    var r1, r2 := VisitSteps(st, kinds, seen, c);
  }

  /** A contact with one identifier claims the key, or gives way to whom the key belongs to. */
  lemma SingleVisit(st: State, kinds: Kinds, c: Id) returns (owner: Id)
    requires Known(st, kinds) && c in kinds && kinds[c].Direct? && Single(st.contacts[c])
    ensures
      var r := Visit(st, kinds, c);
      || (r.list == st.list && r.merges == st.merges)
      || (owner in kinds && r.byServiceId == st.byServiceId && r.byE164 == st.byE164
          && r.list == Combine(st, kinds, owner, c).list && r.merges == Combine(st, kinds, owner, c).merges
          && (if st.contacts[c].serviceId.Some?
              then st.contacts[c].serviceId.value in st.byServiceId
                   && owner == st.byServiceId[st.contacts[c].serviceId.value]
              else st.contacts[c].e164.value in st.byE164 && owner == st.byE164[st.contacts[c].e164.value]))
  {
    var d := st.contacts[c];
    owner := c;
    if d.serviceId.Some? {
      if d.serviceId.value in st.byServiceId { owner := st.byServiceId[d.serviceId.value]; }
      assert Visit(st, kinds, c) == CheckServiceId(st, kinds, c);
    } else {
      if d.e164.value in st.byE164 { owner := st.byE164[d.e164.value]; }
      assert Visit(st, kinds, c) == CheckE164(st, kinds, c);
    }
  }

  // ---------------------------------------------------------------- entries that are alive

  /** The entry under the identifier of a contact that has no other is still there. */
  ghost predicate EntryAlive(st: State, c: Contact) {
    && (c.serviceId.Some? && c.serviceId.value in st.byServiceId ==> st.byServiceId[c.serviceId.value] in st.list)
    && (c.e164.Some? && c.e164.value in st.byE164 ==> st.byE164[c.e164.value] in st.list)
  }

  ghost predicate EntriesAlive(list: seq<Id>, contacts: map<Id, Contact>, st: State) {
    forall s <- list :: s in contacts && Single(contacts[s]) ==> EntryAlive(st, contacts[s])
  }

  /** Entries are only ever replaced by the visited conversation. */
  ghost predicate Replaced(t: map<string, Id>, t': map<string, Id>, c: Id) {
    forall k :: k in t' ==> t'[k] == c || (k in t && t[k] == t'[k])
  }

  lemma ServiceIdReplaces(st: State, kinds: Kinds, c: Id)
    requires Known(st, kinds) && c in kinds
    ensures Replaced(st.byServiceId, CheckServiceId(st, kinds, c).byServiceId, c)
  {}

  lemma PniReplaces(st: State, kinds: Kinds, c: Id)
    requires Known(st, kinds) && c in kinds
    ensures Replaced(st.byServiceId, CheckPni(st, kinds, c).byServiceId, c)
  {}

  lemma PhoneReplaces(st: State, kinds: Kinds, c: Id)
    requires Known(st, kinds) && c in kinds
    ensures Replaced(st.byE164, CheckE164(st, kinds, c).byE164, c)
  {}

  lemma EntriesAfter(st: State, kinds: Kinds, c: Id)
    requires Known(st, kinds) && c in kinds
    ensures Replaced(st.byServiceId, Visit(st, kinds, c).byServiceId, c)
    ensures Replaced(st.byE164, Visit(st, kinds, c).byE164, c)
  {
    var r1 := CheckServiceId(st, kinds, c);
    var r2 := CheckPni(r1, kinds, c);
    var r3 := CheckE164(r2, kinds, c);
    ServiceIdReplaces(st, kinds, c);
    PniReplaces(r1, kinds, c);
    PhoneReplaces(r2, kinds, c);
    ServiceIdKeys(st, kinds, c);
    PniKeys(r1, kinds, c);
    PhoneKeys(r2, kinds, c);
    GroupKeys(r3, kinds, c);
    assert Visit(st, kinds, c) == r3 || Visit(st, kinds, c) == CheckGroup(r3, kinds, c);
  }

  /** Who has the identifier of a contact with no other one. */
  predicate Has(c: Contact, s: Contact) {
    (s.serviceId.Some? && c.Holds(s.serviceId.value)) || (s.e164.Some? && c.e164 == s.e164)
  }

  lemma SingleRivals(list: seq<Id>, kinds: Kinds, contacts: map<Id, Contact>, s: Id, c: Id)
    requires Checkable(list, kinds, contacts) && s in list && c in list && s != c && Single(contacts[s])
    ensures Rivals(list, kinds, contacts, s, c) <==> Has(contacts[c], contacts[s])
  {
    assert !contacts[s].Bare() && kinds[s].Direct?;
  }

  /** Whoever shares something with the entry under that identifier has it too. */
  lemma EntryRivals(list: seq<Id>, kinds: Kinds, contacts: map<Id, Contact>, s: Id, o: Id, c: Id)
    requires Settleable(list, kinds, contacts) && s in list && o in list && c in list && c != o && Single(contacts[s])
    requires Has(contacts[o], contacts[s]) && Linked(kinds, contacts, c, o)
    ensures Has(contacts[c], contacts[s]) && !Torn(contacts[c])
  {
    if s != o { SingleRivals(list, kinds, contacts, s, o); }
    if s != c { SingleRivals(list, kinds, contacts, s, c); }
    assert !contacts[o].Bare() && kinds[o].Direct? && kinds[c].Direct?;
    assert Rivals(list, kinds, contacts, o, c) && Rivals(list, kinds, contacts, c, o);
  }

  /** Once it is visited and there, a contact is the entry of what it has. */
  lemma VisitedOwns(st: State, kinds: Kinds, contacts: map<Id, Contact>, seen: set<Id>, c: Id, s: Contact)
    requires Tracked(st, kinds, seen) && c in seen && c in st.list && c in contacts && c in st.contacts
    requires st.contacts[c] == contacts[c] && Has(contacts[c], s) && Single(s)
    ensures EntryAlive(st, s)
  {
    if s.serviceId.Some? { assert HoldsId(st, c, s.serviceId.value); } else { assert HoldsE164(st, c, s.e164.value); }
  }

  /** The entry that was there under the identifier of `s`. */
  lemma OldEntry(st: State, kinds: Kinds, contacts: map<Id, Contact>, seen: set<Id>, s: Contact, o: Id)
    requires Tracked(st, kinds, seen) && Dropped(contacts, st.contacts, seen) && Single(s)
    requires
      || (s.serviceId.Some? && s.serviceId.value in st.byServiceId && st.byServiceId[s.serviceId.value] == o)
      || (s.e164.Some? && s.e164.value in st.byE164 && st.byE164[s.e164.value] == o)
    ensures o in seen && o in kinds && o in contacts && Has(contacts[o], s)
  {
    if s.serviceId.Some? { assert HoldsId(st, o, s.serviceId.value); } else { assert HoldsE164(st, o, s.e164.value); }
  }

  /** An entry survives the visit of a contact that stays, unless that becomes the entry. */
  lemma StayerKeepsAlive(
    list: seq<Id>, kinds: Kinds, contacts: map<Id, Contact>, st: State, seen: set<Id>, c: Id, s: Id, o: Id)
    requires Settleable(list, kinds, contacts) && Visiting(list, kinds, contacts, st, seen, c) && s in list
    requires Single(contacts[s])
    requires o in seen && o in kinds && o in contacts && Has(contacts[o], contacts[s]) && o in st.list
    requires c in Visit(st, kinds, c).list && !Has(contacts[c], contacts[s])
    ensures o in Visit(st, kinds, c).list
  {
    if Linked(kinds, contacts, c, o) { EntryRivals(list, kinds, contacts, s, o, c); }
    OtherIsHarmless(st, kinds, contacts, seen, c, o);
    VisitSafe(st, kinds, seen, c, o);
  }

  lemma StayerKeepsEntry(
    list: seq<Id>, kinds: Kinds, contacts: map<Id, Contact>, st: State, seen: set<Id>, c: Id, s: Id)
    requires Settleable(list, kinds, contacts) && Visiting(list, kinds, contacts, st, seen, c) && s in list
    requires Single(contacts[s])
    requires EntryAlive(st, contacts[s]) && c in Visit(st, kinds, c).list
    requires Tracked(Visit(st, kinds, c), kinds, seen + {c}) && Visit(st, kinds, c).contacts[c] == contacts[c]
    ensures EntryAlive(Visit(st, kinds, c), contacts[s])
  {
    var r := Visit(st, kinds, c);
    if Has(contacts[c], contacts[s]) {
      VisitedOwns(r, kinds, contacts, seen + {c}, c, contacts[s]);
      return;
    }
    EntriesAfter(st, kinds, c);
    forall o | o in seen && o in kinds && o in contacts && Has(contacts[o], contacts[s]) && o in st.list
      ensures o in r.list
    {
      StayerKeepsAlive(list, kinds, contacts, st, seen, c, s, o);
    }
    SurvivingEntry(st, r, kinds, contacts, seen, c, contacts[s]);
  }

  lemma SurvivingEntry(st: State, r: State, kinds: Kinds, contacts: map<Id, Contact>, seen: set<Id>, c: Id, s: Contact)
    requires Tracked(st, kinds, seen) && Dropped(contacts, st.contacts, seen) && Single(s) && EntryAlive(st, s)
    requires c in r.list
    requires Replaced(st.byServiceId, r.byServiceId, c) && Replaced(st.byE164, r.byE164, c)
    requires forall o :: o in seen && o in kinds && o in contacts && Has(contacts[o], s) && o in st.list ==> o in r.list
    ensures EntryAlive(r, s)
  {
    if s.serviceId.Some? && s.serviceId.value in st.byServiceId {
      OldEntry(st, kinds, contacts, seen, s, st.byServiceId[s.serviceId.value]);
    }
    if s.e164.Some? && s.e164.value in st.byE164 { OldEntry(st, kinds, contacts, seen, s, st.byE164[s.e164.value]); }
  }

  /** A contact with one identifier that is combined away has changed no table, and nobody else went. */
  lemma GoneSingleKeepsEntry(st: State, kinds: Kinds, seen: set<Id>, c: Id, s: Contact)
    requires Tracked(st, kinds, seen) && c in kinds && c !in seen && kinds[c].Direct? && Single(st.contacts[c])
    requires c in st.list
    requires Single(s) && EntryAlive(st, s) && c !in Visit(st, kinds, c).list
    ensures EntryAlive(Visit(st, kinds, c), s)
  {
    var owner := SingleVisit(st, kinds, c);
    WithoutMember(st.list, c);
  }

  // ---------------------------------------------------------------- who stays at its own visit

  lemma GroupVisit(st: State, kinds: Kinds, seen: set<Id>, c: Id)
    requires Tracked(st, kinds, seen) && c in kinds && c !in seen && c in st.list && !kinds[c].Direct?
    ensures Visit(st, kinds, c).byServiceId == st.byServiceId && Visit(st, kinds, c).byE164 == st.byE164
    ensures forall o <- st.list :: o in kinds && kinds[o].Direct? ==> o in Visit(st, kinds, c).list
  {
    assert st.contacts[c].Bare() && Visit(st, kinds, c) == CheckGroup(st, kinds, c);
    forall o | o in st.list && o in kinds && kinds[o].Direct?
      ensures o in Visit(st, kinds, c).list
    {
      DirectIsUnlinked(kinds, st.contacts, c, o);
      VisitSafe(st, kinds, seen, c, o);
    }
  }

  lemma DirectIsUnlinked(kinds: Kinds, contacts: map<Id, Contact>, c: Id, o: Id)
    requires c in kinds && o in kinds && c in contacts && o in contacts && contacts[c].Bare() && kinds[o].Direct?
    ensures !Linked(kinds, contacts, c, o)
  {}

  lemma GroupKeepsEntry(st: State, kinds: Kinds, seen: set<Id>, c: Id, s: Contact)
    requires Tracked(st, kinds, seen) && c in kinds && c !in seen && c in st.list && !kinds[c].Direct?
    requires Single(s) && EntryAlive(st, s)
    ensures EntryAlive(Visit(st, kinds, c), s)
  {
    GroupVisit(st, kinds, seen, c);
    if s.serviceId.Some? && s.serviceId.value in st.byServiceId {
      assert HoldsId(st, st.byServiceId[s.serviceId.value], s.serviceId.value);
      HolderIsDirect(st, kinds, st.byServiceId[s.serviceId.value]);
    }
    if s.e164.Some? && s.e164.value in st.byE164 {
      assert HoldsE164(st, st.byE164[s.e164.value], s.e164.value);
      HolderIsDirect(st, kinds, st.byE164[s.e164.value]);
    }
  }

  /** Whoever is not single stays when it is visited. */
  lemma OthersStay(list: seq<Id>, kinds: Kinds, contacts: map<Id, Contact>, st: State, seen: set<Id>, c: Id)
    requires Settleable(list, kinds, contacts) && Visiting(list, kinds, contacts, st, seen, c)
    requires kinds[c].Direct? && !Single(contacts[c])
    ensures c in Visit(st, kinds, c).list
  {
    if Torn(contacts[c]) { NoRivals(list, kinds, contacts, st, seen, c); }
    forall d | d in seen && d in kinds && Linked(kinds, contacts, c, d)
      ensures Beats(kinds, contacts, c, d)
    {
      assert d in list && c != d && Rivals(list, kinds, contacts, c, d);
    }
    OwnVisitIsHarmless(st, kinds, contacts, seen, c);
    VisitSafe(st, kinds, seen, c, c);
  }

  lemma VisitKeepsEntry(list: seq<Id>, kinds: Kinds, contacts: map<Id, Contact>, st: State, seen: set<Id>, c: Id, s: Id)
    requires Settleable(list, kinds, contacts) && Visiting(list, kinds, contacts, st, seen, c) && s in list
    requires Single(contacts[s])
    requires EntryAlive(st, contacts[s])
    ensures EntryAlive(Visit(st, kinds, c), contacts[s])
  {
    assert st.contacts[c] == contacts[c];
    if !kinds[c].Direct? {
      GroupKeepsEntry(st, kinds, seen, c, contacts[s]);
    } else if c !in Visit(st, kinds, c).list {
      if !Single(contacts[c]) { OthersStay(list, kinds, contacts, st, seen, c); }
      GoneSingleKeepsEntry(st, kinds, seen, c, contacts[s]);
    } else {
      VisitDirect(st, kinds, seen, c);
      StayerKeepsEntry(list, kinds, contacts, st, seen, c, s);
    }
  }

  // ---------------------------------------------------------------- the whole loop

  lemma SingleAbsorbs(list: seq<Id>, kinds: Kinds, contacts: map<Id, Contact>, st: State, seen: set<Id>, c: Id)
    requires Settleable(list, kinds, contacts) && Visiting(list, kinds, contacts, st, seen, c)
    requires EntriesAlive(list, contacts, st) && kinds[c].Direct? && Single(contacts[c])
    ensures Absorbs(st, Visit(st, kinds, c))
  {
    var r := Visit(st, kinds, c);
    assert st.contacts[c] == contacts[c] && EntryAlive(st, contacts[c]);
    var owner := SingleVisit(st, kinds, c);
    if !(r.list == st.list && r.merges == st.merges) {
      assert owner in seen;
      CombineAbsorbs(st, r, kinds, owner, c);
    }
  }

  lemma VisitKeepsHeirs(list: seq<Id>, kinds: Kinds, contacts: map<Id, Contact>, st: State, seen: set<Id>, c: Id)
    requires Settleable(list, kinds, contacts) && Visiting(list, kinds, contacts, st, seen, c)
    requires EntriesAlive(list, contacts, st) && HeirsListed(st, list) && Accounted(st, list)
    ensures HeirsListed(Visit(st, kinds, c), list)
  {
    var r := Visit(st, kinds, c);
    assert st.contacts[c] == contacts[c];
    if !kinds[c].Direct? {
      assert st.contacts[c].Bare() && r == CheckGroup(st, kinds, c);
      GroupAbsorbs(st, kinds, seen, c);
      AbsorbsKeepsHeirs(st, r, list);
    } else if contacts[c].serviceId.Some? <==> contacts[c].e164.Some? {
      BalancedVisit(st, kinds, seen, c, list);
    } else if contacts[c].pni.None? {
      SingleAbsorbs(list, kinds, contacts, st, seen, c);
      AbsorbsKeepsHeirs(st, r, list);
    } else {
      NoRivals(list, kinds, contacts, st, seen, c);
      UnrivalledVisit(st, kinds, seen, c);
    }
  }

  lemma NoRivals(list: seq<Id>, kinds: Kinds, contacts: map<Id, Contact>, st: State, seen: set<Id>, c: Id)
    requires Settleable(list, kinds, contacts) && Visiting(list, kinds, contacts, st, seen, c) && kinds[c].Direct?
    requires Torn(contacts[c])
    ensures forall d :: d in seen && d in kinds ==> !Linked(kinds, st.contacts, c, d) && !Linked(kinds, contacts, c, d)
  {
    forall d | d in seen && d in kinds
      ensures !Linked(kinds, contacts, c, d) && (Linked(kinds, st.contacts, c, d) ==> Linked(kinds, contacts, c, d))
    {
      assert d in list && d != c && !Rivals(list, kinds, contacts, c, d);
    }
  }

  lemma {:induction false} HeirsAfter(
    list: seq<Id>, kinds: Kinds, contacts: map<Id, Contact>, todo: seq<Id>, done: seq<Id>)
    requires Settleable(list, kinds, contacts) && todo + done == list
    ensures
      var r := Visits(Initial(list, contacts), kinds, done);
      HeirsListed(r, list) && EntriesAlive(list, contacts, r)
    decreases |done|
  {
    if done != [] {
      var c, before := done[0], done[1..];
      assert todo + [c] + before == list;
      var st := Visits(Initial(list, contacts), kinds, before);
      HeirsAfter(list, kinds, contacts, todo + [c], before);
      VisitingNext(list, kinds, contacts, todo, c, before);
      var seen := Halfway(list, kinds, contacts, todo + [c], before);
      VisitKeepsHeirs(list, kinds, contacts, st, Elements(before), c);
      forall s | s in list && Single(contacts[s])
        ensures EntryAlive(Visit(st, kinds, c), contacts[s])
      {
        VisitKeepsEntry(list, kinds, contacts, st, Elements(before), c, s);
      }
    }
  }

  /**
   On a settleable store every merge is into a conversation that is there when it is made, and the
   data of every conversation of the initial list ends up with one that is left.
   */
  lemma EverybodyHasAnHeir(list: seq<Id>, kinds: Kinds, contacts: map<Id, Contact>)
    requires Settleable(list, kinds, contacts)
    ensures
      var r := Check(list, kinds, contacts);
      CurrentsListed(r.merges) && forall x <- list :: Heir(r.merges, x) in r.list
  {
    HeirsAfter(list, kinds, contacts, [], list);
  }
}
