/**
 The conversations as the application has them once it has started: the tables were filled, phone
 numbers that are none were cleared, and the conflict check has run. When that store is exact.
 */
module StartUp {
  import opened Wrappers
  import opened Lists
  import opened ContactBook
  import opened ContactMerge
  import opened ConflictRules
  import opened ConflictProofs
  import opened ConflictResult
  import opened ConflictTables
  import opened ConflictFound
  import opened ContactMergeRuns

  /** A service id got into the slot of the phone number; loading clears it from the attributes alone. */
  predicate Misfiled(c: Contact) { c.e164.Some? && IsServiceIdString(c.e164.value) && c.serviceId.Some? }

  function Clear(c: Contact): Contact { if Misfiled(c) then c.(e164 := None) else c }

  function Cleaned(contacts: map<Id, Contact>): (r: map<Id, Contact>)
    ensures r.Keys == contacts.Keys && forall x :: x in r ==> r[x] == Clear(contacts[x])
  {
    map x | x in contacts :: Clear(contacts[x])
  }

  function MisfiledIds(contacts: map<Id, Contact>): set<Id> { set x | x in contacts && Misfiled(contacts[x]) }

  /** All that is loaded is checked. */
  ghost predicate Loadable(list: seq<Id>, kinds: Kinds, contacts: map<Id, Contact>) {
    && Checkable(list, kinds, contacts) && GroupsAgree(kinds, contacts)
    && forall c :: c in contacts ==> c in list
  }

  /** Loading and the conflict check. */
  function Started(list: seq<Id>, kinds: Kinds, contacts: map<Id, Contact>): Book
    requires contacts.Keys == kinds.Keys && forall c <- list :: c in kinds
  {
    var r := Check(list, kinds, Cleaned(contacts));
    After(Loaded(list, contacts), r.(stale := r.stale + MisfiledIds(contacts)))
  }

  lemma NothingToClean(contacts: map<Id, Contact>)
    requires forall c :: c in contacts ==> !Misfiled(contacts[c])
    ensures Cleaned(contacts) == contacts && MisfiledIds(contacts) == {}
  {}

  /** The entry of a misfiled number is misfiled itself; it keeps its key and has lost the number. */
  lemma MisfiledStays(list: seq<Id>, kinds: Kinds, contacts: map<Id, Contact>, c: Id)
    requires Checkable(list, kinds, contacts) && c in list && Misfiled(contacts[c])
    ensures !IndexExact(Started(list, kinds, contacts), E164Slot)
  {
    var t := Loaded(list, contacts).byE164;
    var e := MisfiledEntry(list, contacts, c);
    CheckedNumber(list, kinds, contacts, t[e]);
    var b := Started(list, kinds, contacts);
    assert e in b.Index(E164Slot) && b.Index(E164Slot)[e] == t[e];
    assert !Owns(b.contacts, t[e], E164Slot, e);
  }

  lemma CheckedNumber(list: seq<Id>, kinds: Kinds, contacts: map<Id, Contact>, w: Id)
    requires Checkable(list, kinds, contacts) && w in contacts && Misfiled(contacts[w])
    ensures var r := Check(list, kinds, Cleaned(contacts)); w in r.contacts && r.contacts[w].e164.None?
  {
    assert Checkable(list, kinds, Cleaned(contacts));
    EveryoneAccounted(list, kinds, Cleaned(contacts));
  }

  /** No entry for a number lost it, neither when numbers were cleared nor in the check, exactly if none was cleared. */
  lemma NumbersSoundIff(list: seq<Id>, kinds: Kinds, contacts: map<Id, Contact>)
    requires Checkable(list, kinds, contacts) && forall c :: c in contacts ==> c in list
    ensures
      var t, r := Loaded(list, contacts).byE164, Check(list, kinds, Cleaned(contacts));
      !SomeStale(t, r.stale + MisfiledIds(contacts)) <==> forall c <- list :: !Misfiled(contacts[c])
  {
    if c :| c in list && Misfiled(contacts[c]) {
      var e := MisfiledEntry(list, contacts, c);
    } else {
      NothingToClean(contacts);
      FilledIsNeverStale(list, kinds, contacts);
    }
  }

  lemma MisfiledEntry(list: seq<Id>, contacts: map<Id, Contact>, c: Id) returns (e: string)
    requires (forall d <- list :: d in contacts) && c in list && Misfiled(contacts[c])
    ensures
      var t := Loaded(list, contacts).byE164;
      e in t && t[e] in contacts && contacts[t[e]].e164 == Some(e) && Misfiled(contacts[t[e]])
  {
    var t := Loaded(list, contacts).Index(E164Slot);
    e := contacts[c].e164.value;
    LoadedIsRight(list, contacts, E164Slot);
    assert contacts[c].Get(E164Slot) == Some(e);
    var i :| EntryAt(list, contacts, E164Slot, e, t[e], i);
  }

  // ---------------------------------------------------------------- sound and complete

  lemma LoadedIsFiled(list: seq<Id>, contacts: map<Id, Contact>, slot: Slot)
    requires forall c <- list :: c in contacts
    ensures FiledUnder(Loaded(list, contacts).Index(slot), contacts, slot)
  {
    LoadedIsRight(list, contacts, slot);
    var t := Loaded(list, contacts).Index(slot);
    forall v | v in t
      ensures t[v] in contacts && contacts[t[v]].Get(slot) == Some(v)
    {
      var i :| EntryAt(list, contacts, slot, v, t[v], i);
    }
  }

  lemma CleanStart(list: seq<Id>, kinds: Kinds, contacts: map<Id, Contact>)
    requires Checkable(list, kinds, contacts) && forall c :: c in contacts ==> !Misfiled(contacts[c])
    ensures Started(list, kinds, contacts) == After(Loaded(list, contacts), Check(list, kinds, contacts))
    ensures Cleaned(contacts) == contacts
  {
    var r := Check(list, kinds, contacts);
    NothingToClean(contacts);
    assert r.(stale := r.stale + {}) == r;
  }

  lemma LeftSound(b: Book, contacts: map<Id, Contact>, r: State, slot: Slot, v: string)
    requires FiledUnder(b.Index(slot), contacts, slot) && NumbersKept(contacts, r)
    requires slot == E164Slot ==> forall k :: k in b.Index(slot) ==> b.Index(slot)[k] !in r.stale
    requires v in After(b, r).Index(slot)
    ensures Owns(After(b, r).contacts, After(b, r).Index(slot)[v], slot, v)
  {
    var w := b.Index(slot)[v];
    assert w in r.list && r.contacts[w].Get(slot) == Some(v);
  }

  /** What is left in the tables after the check is sound. */
  lemma StartedIsSound(list: seq<Id>, kinds: Kinds, contacts: map<Id, Contact>, slot: Slot, v: string)
    requires Checkable(list, kinds, contacts) && (forall c :: c in contacts ==> !Misfiled(contacts[c]))
    requires v in Started(list, kinds, contacts).Index(slot)
    ensures var b := Started(list, kinds, contacts); Owns(b.contacts, b.Index(slot)[v], slot, v)
  {
    CleanStart(list, kinds, contacts);
    CheckedIsSound(list, kinds, contacts, Loaded(list, contacts), slot, v);
  }

  lemma CheckedIsSound(list: seq<Id>, kinds: Kinds, contacts: map<Id, Contact>, b: Book, slot: Slot, v: string)
    requires Checkable(list, kinds, contacts) && b == Loaded(list, contacts)
    requires v in After(b, Check(list, kinds, contacts)).Index(slot)
    ensures
      var r := After(b, Check(list, kinds, contacts));
      Owns(r.contacts, r.Index(slot)[v], slot, v)
  {
    LoadedIsFiled(list, contacts, slot);
    AfterVisits(list, kinds, contacts, [], list);
    FilledIsNeverStale(list, kinds, contacts);
    assert slot == E164Slot ==> b.Index(slot) == b.byE164;
    LeftSound(b, contacts, Check(list, kinds, contacts), slot, v);
  }

  /** The survivor is the entry of what it has in this slot. */
  ghost predicate FoundIn(b: Book, x: Id, slot: Slot) {
    x in b.contacts && (b.contacts[x].Get(slot).Some? ==>
      var v := b.contacts[x].Get(slot).value; v in b.Index(slot) && b.Index(slot)[v] == x)
  }

  lemma SurvivorKept(list: seq<Id>, kinds: Kinds, contacts: map<Id, Contact>, x: Id)
    requires Checkable(list, kinds, contacts) && (forall c :: c in contacts ==> !Misfiled(contacts[c]))
    requires x in Check(list, kinds, contacts).list
    ensures
      var b, r := Started(list, kinds, contacts), Check(list, kinds, contacts);
      && x in contacts && x in b.contacts && x in r.contacts && b.contacts[x] == r.contacts[x]
      && (b.contacts[x] == contacts[x] || b.contacts[x] == contacts[x].(e164 := None))
  {
    NothingToClean(contacts);
    ListedInitially(list, kinds, contacts, x);
    EveryoneAccounted(list, kinds, contacts);
  }

  lemma SurvivorFound(list: seq<Id>, kinds: Kinds, contacts: map<Id, Contact>, x: Id)
    requires Checkable(list, kinds, contacts) && GroupsAgree(kinds, contacts)
    requires (forall c :: c in contacts ==> !Misfiled(contacts[c])) && x in Check(list, kinds, contacts).list
    ensures
      var b := Started(list, kinds, contacts);
      && FoundIn(b, x, ServiceIdSlot) && FoundIn(b, x, E164Slot) && FoundIn(b, x, GroupIdSlot)
      && (FoundIn(b, x, PniSlot) <==> !Unfindable(list, contacts, x))
  {
    CleanStart(list, kinds, contacts);
    SurvivorKept(list, kinds, contacts, x);
    var b, r, c := Loaded(list, contacts), Check(list, kinds, contacts), contacts[x];
    if c.serviceId.Some? { ServiceIdFound(list, kinds, contacts, x); }
    if c.pni.Some? { PniFoundIff(list, kinds, contacts, x); }
    if c.groupId.Some? { GroupFound(list, kinds, contacts, x); }
    if r.contacts[x].e164.Some? { PhoneFound(list, kinds, contacts, x); }
    EntriesLeft(b, c, r, x);
  }

  /** A survivor that was the entry still is, and it was not if it is not. */
  lemma EntriesLeft(b: Book, c: Contact, r: State, x: Id)
    requires x in r.list && x in r.contacts && (r.contacts[x] == c || r.contacts[x] == c.(e164 := None))
    requires c.serviceId.Some? ==> c.serviceId.value in b.byServiceId && b.byServiceId[c.serviceId.value] == x
    requires r.contacts[x].e164.Some? ==> c.e164.value in b.byE164 && b.byE164[c.e164.value] == x
    requires c.groupId.Some? ==> c.groupId.value in b.byGroupId && b.byGroupId[c.groupId.value] == x
    ensures FoundIn(After(b, r), x, ServiceIdSlot) && FoundIn(After(b, r), x, E164Slot)
    ensures FoundIn(After(b, r), x, GroupIdSlot)
    ensures FoundIn(After(b, r), x, PniSlot) <==> (c.pni.Some? ==> c.pni.value in b.byPni && b.byPni[c.pni.value] == x)
  {
    assert After(b, r).contacts[x] == r.contacts[x];
  }

  ghost predicate Found(b: Book, x: Id) {
    FoundIn(b, x, ServiceIdSlot) && FoundIn(b, x, E164Slot) && FoundIn(b, x, PniSlot) && FoundIn(b, x, GroupIdSlot)
  }

  lemma IndexExactBySlot(b: Book, slot: Slot)
    requires forall v :: v in b.Index(slot) ==> Owns(b.contacts, b.Index(slot)[v], slot, v)
    ensures IndexExact(b, slot) <==> forall x :: x in b.contacts ==> FoundIn(b, x, slot)
  {
    assert forall x, v :: Owns(b.contacts, x, slot, v) <==> x in b.contacts && b.contacts[x].Get(slot) == Some(v);
  }

  /** Sound, and every conversation is found in every slot: that is being exact. */
  lemma ExactBySlots(b: Book)
    requires forall slot: Slot, v :: v in b.Index(slot) ==> Owns(b.contacts, b.Index(slot)[v], slot, v)
    ensures Exact(b) <==> forall x :: x in b.contacts ==> Found(b, x)
  {
    IndexExactBySlot(b, ServiceIdSlot);
    IndexExactBySlot(b, E164Slot);
    IndexExactBySlot(b, PniSlot);
    IndexExactBySlot(b, GroupIdSlot);
  }

  /**
   Once the application has started, its tables are exact if and only if no phone number had to be
   cleared and every survivor with a PNI has a service id too or was alone with its PNI when loaded.
   */
  lemma StartedExactIff(list: seq<Id>, kinds: Kinds, contacts: map<Id, Contact>)
    requires Loadable(list, kinds, contacts)
    ensures
      Exact(Started(list, kinds, contacts))
      <==> (forall c <- list ::
              contacts[c].e164.Some? && contacts[c].serviceId.Some? ==> !IsServiceIdString(contacts[c].e164.value))
           && forall x <- Check(list, kinds, Cleaned(contacts)).list :: !Unfindable(list, contacts, x)
  {
    if c :| c in list && Misfiled(contacts[c]) {
      MisfiledStays(list, kinds, contacts, c);
    } else {
      CleanStartExactIff(list, kinds, contacts);
    }
  }

  lemma CleanStartExactIff(list: seq<Id>, kinds: Kinds, contacts: map<Id, Contact>)
    requires Loadable(list, kinds, contacts) && forall c <- list :: !Misfiled(contacts[c])
    ensures
      Exact(Started(list, kinds, contacts))
      <==> forall x <- Check(list, kinds, Cleaned(contacts)).list :: !Unfindable(list, contacts, x)
  {
    CleanStart(list, kinds, contacts);
    var b, r := Started(list, kinds, contacts), Check(list, kinds, contacts);
    forall slot: Slot, v | v in b.Index(slot)
      ensures Owns(b.contacts, b.Index(slot)[v], slot, v)
    {
      StartedIsSound(list, kinds, contacts, slot, v);
    }
    ExactBySlots(b);
    forall x | x in r.list
      ensures x in b.contacts && (Found(b, x) <==> !Unfindable(list, contacts, x))
    {
      SurvivorFound(list, kinds, contacts, x);
      SurvivorKept(list, kinds, contacts, x);
    }
  }

  // ---------------------------------------------------------------- a valid store

  lemma StartedIsDisjoint(list: seq<Id>, kinds: Kinds, contacts: map<Id, Contact>)
    requires Checkable(list, kinds, contacts)
    ensures Disjoint(Started(list, kinds, contacts).contacts)
  {
    var r := Check(list, kinds, Cleaned(contacts));
    assert Checkable(list, kinds, Cleaned(contacts));
    SurvivorsDistinct(list, kinds, Cleaned(contacts));
    EveryoneAccounted(list, kinds, Cleaned(contacts));
    DistinctIsDisjoint(kinds, r, Started(list, kinds, contacts).contacts);
  }

  lemma DistinctIsDisjoint(kinds: Kinds, r: State, left: map<Id, Contact>)
    requires r.contacts.Keys == kinds.Keys
    requires forall x :: x in left ==> x in r.list && x in r.contacts && left[x] == r.contacts[x]
    requires forall a, b :: a in r.list && b in r.list && a in kinds && b in kinds && a != b ==>
        !Linked(kinds, r.contacts, a, b)
    ensures Disjoint(left)
  {
    forall a, b | a in left && b in left && a != b
      ensures !Shares(left[a], left[b])
    {
      assert !Linked(kinds, r.contacts, a, b);
    }
  }

  lemma WellTypedIsNotMisfiled(contacts: map<Id, Contact>)
    requires WellTyped(contacts)
    ensures forall c :: c in contacts ==> !Misfiled(contacts[c])
  {
    forall c | c in contacts && contacts[c].e164.Some?
      ensures !IsServiceIdString(contacts[c].e164.value)
    {
      assert contacts[c].WellTyped();
      NoDoublePlus(contacts[c].e164.value);
    }
  }

  /** Of well-typed conversations: the store the merges need is there exactly if no survivor is unfindable. */
  lemma StartedValidIff(list: seq<Id>, kinds: Kinds, contacts: map<Id, Contact>)
    requires Loadable(list, kinds, contacts) && WellTyped(contacts)
    ensures
      Valid(Started(list, kinds, contacts))
      <==> forall x <- Check(list, kinds, contacts).list :: !Unfindable(list, contacts, x)
  {
    WellTypedIsNotMisfiled(contacts);
    NothingToClean(contacts);
    StartedExactIff(list, kinds, contacts);
    StartedIsDisjoint(list, kinds, contacts);
    EveryoneAccounted(list, kinds, contacts);
    forall x | x in Started(list, kinds, contacts).contacts
      ensures Started(list, kinds, contacts).contacts[x].WellTyped()
    {
      SurvivorKept(list, kinds, contacts, x);
      assert contacts[x].WellTyped();
    }
  }

  /** In particular whenever every contact with a PNI has a service id, whatever conflicts there are. */
  lemma StartedValid(list: seq<Id>, kinds: Kinds, contacts: map<Id, Contact>)
    requires Loadable(list, kinds, contacts) && WellTyped(contacts)
    requires forall c :: c in contacts && contacts[c].pni.Some? ==> contacts[c].serviceId.Some?
    ensures Valid(Started(list, kinds, contacts))
  {
    StartedValidIff(list, kinds, contacts);
  }

  // ---------------------------------------------------------------- a survivor that is not found

  /** A contact with a phone number that `#addToLookup` leaves out for another one, which the check combines into it. */
  function WithPhone(): Contact { Contact(None, Some("+1"), Some("PNI:P"), None) }

  function WithAci(aci: string): Contact { Contact(Some(aci), None, Some("PNI:P"), None) }

  lemma TakenByPhone(contacts: map<Id, Contact>, kinds: Kinds, aci: string)
    requires kinds == map["a" := Direct, "b" := Direct] && aci != "PNI:P"
    requires contacts == map["a" := WithPhone(), "b" := WithAci(aci)]
    ensures
      var r := Check(["a", "b"], kinds, contacts);
      r.list == ["a"] && r.stale == {} && r.contacts == contacts && r.merges == [Merge("a", "b")]
  {
    var s0 := Initial(["a", "b"], contacts);
    var s1 := Visit(s0, kinds, "b");
    assert s1 == s0.(byServiceId := map[aci := "b", "PNI:P" := "b"]);
    assert Without(["a", "b"], "b") == ["a"];
    var s2 := CheckPni(s1, kinds, "a");
    assert s2.list == ["a"] && s2.merges == [Merge("a", "b")];
    assert Visit(s1, kinds, "a") == CheckE164(s2, kinds, "a");
    assert ["a", "b"][1..] == ["b"] && ["b"][1..] == [];
    assert Visits(s0, kinds, ["b"]) == s1;
  }

  lemma BothLoaded(contacts: map<Id, Contact>, aci: string)
    requires contacts == map["a" := WithPhone(), "b" := WithAci(aci)]
    ensures Loaded(["a", "b"], contacts)
            == Book(contacts, map[aci := "b"], map["+1" := "a"], map["PNI:P" := "b"], map[])
  {
    assert ["a", "b"][..1] == ["a"] && ["a"][..0] == [];
    assert contacts["a" := contacts["a"]] == contacts && contacts["b" := contacts["b"]] == contacts;
    assert Loaded([], contacts) == Book(contacts, map[], map[], map[], map[]);
    assert Loaded(["a"], contacts) == Book(contacts, map[], map["+1" := "a"], map["PNI:P" := "a"], map[]);
  }

  lemma NotFoundAfter(contacts: map<Id, Contact>, aci: string, r: State)
    requires contacts == map["a" := WithPhone(), "b" := WithAci(aci)] && r.list == ["a"] && r.contacts == contacts
    requires r.stale == {}
    ensures
      var b := After(Loaded(["a", "b"], contacts), r);
      "a" in b.contacts && b.contacts["a"] == WithPhone() && Lookup(b, Some("PNI:P")) == None
  {
    BothLoaded(contacts, aci);
    var b := After(Loaded(["a", "b"], contacts), r);
    assert b.byServiceId == map[] && b.byPni == map[] && b.byGroupId == map[] && b.byE164 == map["+1" := "a"];
    assert |"+" + "PNI:P"| != |"+1"| && |"PNI:P"| != |"+1"| && |"PNI:P"| != |"a"|;
  }

  lemma BothLoadable(kinds: Kinds, contacts: map<Id, Contact>, aci: string)
    requires kinds == map["a" := Direct, "b" := Direct] && contacts == map["a" := WithPhone(), "b" := WithAci(aci)]
    ensures Loadable(["a", "b"], kinds, contacts) && forall c :: c in contacts ==> !Misfiled(contacts[c])
  {}

  /** The survivor of two contacts with one PNI is listed and has the PNI, and `get` does not find it. */
  lemma SurvivorNotFound(aci: string) returns (list: seq<Id>, kinds: Kinds, contacts: map<Id, Contact>)
    requires IsUuid(aci)
    ensures Loadable(list, kinds, contacts) && "a" in contacts && contacts["a"].pni == Some("PNI:P")
    ensures Check(list, kinds, contacts).list == ["a"]
    ensures
      var b := Started(list, kinds, contacts);
      "a" in b.contacts && b.contacts["a"] == contacts["a"] && Lookup(b, Some("PNI:P")) == None
  {
    list, kinds := ["a", "b"], map["a" := Direct, "b" := Direct];
    contacts := map["a" := WithPhone(), "b" := WithAci(aci)];
    assert |aci| != |"PNI:P"|;
    BothLoadable(kinds, contacts, aci);
    TakenByPhone(contacts, kinds, aci);
    CleanStart(list, kinds, contacts);
    NotFoundAfter(contacts, aci, Check(list, kinds, contacts));
  }

  // ---------------------------------------------------------------- from the start on

  /** The store that loading leaves is regular if what was stored is. */
  lemma StartedIsRegular(list: seq<Id>, kinds: Kinds, contacts: map<Id, Contact>)
    requires Loadable(list, kinds, contacts) && WellTyped(contacts) && AllRegular(contacts)
    ensures AllRegular(Started(list, kinds, contacts).contacts)
  {
    WellTypedIsNotMisfiled(contacts);
    CleanStart(list, kinds, contacts);
    forall x | x in Started(list, kinds, contacts).contacts
      ensures Regular(Started(list, kinds, contacts).contacts[x])
    {
      SurvivorKept(list, kinds, contacts, x);
    }
  }

  /** From the start of the application on no proper call misses an identifier it was called with. */
  lemma RunsFromStart(list: seq<Id>, kinds: Kinds, contacts: map<Id, Contact>, calls: seq<Call>)
    requires Loadable(list, kinds, contacts) && WellTyped(contacts) && AllRegular(contacts)
    requires forall x <- Check(list, kinds, contacts).list :: !Unfindable(list, contacts, x)
    requires ProperCalls(Started(list, kinds, contacts), calls)
    ensures EveryCallFinds(Started(list, kinds, contacts), calls)
  {
    StartedValidIff(list, kinds, contacts);
    StartedIsRegular(list, kinds, contacts);
    RunsFindEverything(Started(list, kinds, contacts), calls);
  }
}
