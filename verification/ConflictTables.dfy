/**
 What the conflict check does to the lookup tables of the controller, of which it only ever removes
 the entries of conversations it removes; and when that leaves the table of phone numbers unsound.
 */
module ConflictTables {
  import opened Wrappers
  import opened Lists
  import opened ContactBook
  import opened ContactMerge
  import opened ConflictRules
  import opened ConflictProofs
  import opened ConflictResult
  import opened ConflictTwins

  // ---------------------------------------------------------------- entries that are left

  /** Entries have the key they are filed under. */
  ghost predicate FiledUnder(t: map<string, Id>, contacts: map<Id, Contact>, slot: Slot) {
    forall k :: k in t ==> t[k] in contacts && contacts[t[k]].Get(slot) == Some(k)
  }

  /** A table without the entries of conversations that were removed ... */
  function Left(t: map<string, Id>, list: seq<Id>): map<string, Id> { map k | k in t && t[k] in list :: t[k] }

  /** ... but those that had lost their phone number by then are not found in it any more. */
  function PhonesLeft(t: map<string, Id>, list: seq<Id>, stale: set<Id>): map<string, Id> {
    map k | k in t && (t[k] in list || t[k] in stale) :: t[k]
  }

  /** The store after a check that ended in `r`, if the tables were those of `b` when it started. */
  function After(b: Book, r: State): Book {
    Book(
      map x | x in r.list && x in r.contacts :: r.contacts[x],
      Left(b.byServiceId, r.list),
      PhonesLeft(b.byE164, r.list, r.stale),
      Left(b.byPni, r.list),
      Left(b.byGroupId, r.list))
  }

  /** What is listed has its attributes, but for numbers that were dropped. */
  ghost predicate NumbersKept(contacts: map<Id, Contact>, st: State) {
    && (forall d :: d in st.list ==>
          && d in contacts && d in st.contacts
          && st.contacts[d] == (if d in st.stale then contacts[d].(e164 := None) else contacts[d]))
    && (forall d :: d in st.stale ==> d in st.contacts && st.contacts[d].e164.None?)
  }

  lemma DropLeavesPhones(t: map<string, Id>, list: seq<Id>, stale: set<Id>, d: Id)
    requires d in list
    ensures PhonesLeft(t, list, stale + {d}) == PhonesLeft(t, list, stale)
  {}

  lemma RemovalLeaves(t: map<string, Id>, contacts: map<Id, Contact>, slot: Slot, st: State, r: State, o: Id)
    requires FiledUnder(t, contacts, slot) && o in contacts && o in st.list && r.list == Without(st.list, o)
    requires NoDuplicates(st.list)
    ensures Unindexed(Left(t, st.list), contacts[o].Get(slot), o) == Left(t, r.list)
  {
    WithoutMember(st.list, o);
  }

  lemma RemovalLeavesPhones(t: map<string, Id>, contacts: map<Id, Contact>, st: State, r: State, o: Id)
    requires FiledUnder(t, contacts, E164Slot) && NumbersKept(contacts, st)
    requires o in st.list && r.list == Without(st.list, o) && r.stale == st.stale && NoDuplicates(st.list)
    ensures Unindexed(PhonesLeft(t, st.list, st.stale), st.contacts[o].e164, o) == PhonesLeft(t, r.list, r.stale)
  {
    WithoutMember(st.list, o);
    assert contacts[o].Get(E164Slot) == contacts[o].e164;
  }

  /** Some entry has lost its number. */
  ghost predicate SomeStale(t: map<string, Id>, stale: set<Id>) { exists k :: k in t && t[k] in stale }

  /** At the end the table of phone numbers is sound exactly if no entry of it lost its number while listed. */
  lemma PhonesSoundIff(t: map<string, Id>, contacts: map<Id, Contact>, st: State)
    requires FiledUnder(t, contacts, E164Slot) && NumbersKept(contacts, st)
    ensures
      && (forall k :: k in PhonesLeft(t, st.list, st.stale) ==> PhonesLeft(t, st.list, st.stale)[k] in st.list)
      && FiledUnder(PhonesLeft(t, st.list, st.stale), st.contacts, E164Slot)
      <==> !SomeStale(t, st.stale)
  {
    if k :| k in t && t[k] in st.stale {
      assert k in PhonesLeft(t, st.list, st.stale);
      assert st.contacts[t[k]].Get(E164Slot) == None;
    }
    assert forall k :: k in t ==> contacts[t[k]].Get(E164Slot) == contacts[t[k]].e164;
    assert forall d :: d in st.contacts ==> st.contacts[d].Get(E164Slot) == st.contacts[d].e164;
  }

  // ---------------------------------------------------------------- phases

  lemma ServiceIdFrame(st: State, kinds: Kinds, c: Id)
    requires Known(st, kinds) && c in kinds
    ensures
      var r := CheckServiceId(st, kinds, c);
      r.contacts == st.contacts && r.byE164 == st.byE164 && r.stale == st.stale
  {}

  lemma PniFrame(st: State, kinds: Kinds, c: Id)
    requires Known(st, kinds) && c in kinds
    ensures var r := CheckPni(st, kinds, c); r.contacts == st.contacts && r.byE164 == st.byE164 && r.stale == st.stale
  {}

  lemma GroupFrame(st: State, kinds: Kinds, c: Id)
    requires Known(st, kinds) && c in kinds
    ensures var r := CheckGroup(st, kinds, c); r.contacts == st.contacts && r.byE164 == st.byE164 && r.stale == st.stale
  {}

  lemma ShrunkKeepsNumbers(st: State, r: State, contacts: map<Id, Contact>)
    requires NumbersKept(contacts, st) && r.contacts == st.contacts && r.stale == st.stale
    requires forall y <- r.list :: y in st.list
    ensures NumbersKept(contacts, r)
  {}

  lemma ServiceIdKeepsNumbers(st: State, kinds: Kinds, contacts: map<Id, Contact>, c: Id)
    requires Known(st, kinds) && c in kinds && NumbersKept(contacts, st)
    ensures NumbersKept(contacts, CheckServiceId(st, kinds, c))
  {
    ServiceIdFrame(st, kinds, c);
    PhasesShrink(st, kinds, c);
    ShrunkKeepsNumbers(st, CheckServiceId(st, kinds, c), contacts);
  }

  lemma PniKeepsNumbers(st: State, kinds: Kinds, contacts: map<Id, Contact>, c: Id)
    requires Known(st, kinds) && c in kinds && NumbersKept(contacts, st)
    ensures NumbersKept(contacts, CheckPni(st, kinds, c))
  {
    PniFrame(st, kinds, c);
    PhasesShrink(st, kinds, c);
    ShrunkKeepsNumbers(st, CheckPni(st, kinds, c), contacts);
  }

  lemma GroupKeepsNumbers(st: State, kinds: Kinds, contacts: map<Id, Contact>, c: Id)
    requires Known(st, kinds) && c in kinds && NumbersKept(contacts, st)
    ensures NumbersKept(contacts, CheckGroup(st, kinds, c))
  {
    GroupFrame(st, kinds, c);
    PhasesShrink(st, kinds, c);
    ShrunkKeepsNumbers(st, CheckGroup(st, kinds, c), contacts);
  }

  lemma PhoneKeepsNumbers(st: State, kinds: Kinds, contacts: map<Id, Contact>, c: Id)
    requires Known(st, kinds) && c in kinds && NumbersKept(contacts, st)
    ensures NumbersKept(contacts, CheckE164(st, kinds, c))
  {
    if Dropping(st, c) {
      var d := st.byE164[st.contacts[c].e164.value];
      assert CheckE164(st, kinds, c).contacts == st.contacts[d := st.contacts[d].(e164 := None)];
    } else {
      PhasesShrink(st, kinds, c);
      ShrunkKeepsNumbers(st, CheckE164(st, kinds, c), contacts);
    }
  }

  lemma VisitKeepsNumbers(st: State, kinds: Kinds, contacts: map<Id, Contact>, c: Id)
    requires Known(st, kinds) && c in kinds && NumbersKept(contacts, st)
    ensures NumbersKept(contacts, Visit(st, kinds, c))
  {
    var r1 := CheckServiceId(st, kinds, c);
    var r2 := CheckPni(r1, kinds, c);
    ServiceIdKeepsNumbers(st, kinds, contacts, c);
    PniKeepsNumbers(r1, kinds, contacts, c);
    PhoneKeepsNumbers(r2, kinds, contacts, c);
    GroupKeepsNumbers(CheckE164(r2, kinds, c), kinds, contacts, c);
  }

  /**
   The dropped conversation is the entry of its number at that moment, exactly if it was listed and the
   first entry.
   */
  lemma EntryWhenDropped(t: map<string, Id>, st: State, kinds: Kinds, contacts: map<Id, Contact>, seen: set<Id>, c: Id)
    requires Known(st, kinds) && c in kinds && NumbersKept(contacts, st) && E164sSound(st, seen) && Dropping(st, c)
    ensures
      var e := st.contacts[c].e164.value;
      var d := st.byE164[e];
      e in PhonesLeft(t, st.list, st.stale) && PhonesLeft(t, st.list, st.stale)[e] == d
      <==> e in t && t[e] == d && d in CheckE164(st, kinds, c).stale
  {
    assert HoldsE164(st, st.byE164[st.contacts[c].e164.value], st.contacts[c].e164.value);
  }

  // ---------------------------------------------------------------- tables filled from the list

  /** The store as `#generateLookups` fills its tables, with the conflict rules of `#addToLookup`. */
  function Loaded(list: seq<Id>, contacts: map<Id, Contact>): Book
    requires forall c <- list :: c in contacts
  {
    if list == [] then Book(contacts, map[], map[], map[], map[])
    else AddConversation(Loaded(list[..|list| - 1], contacts), list[|list| - 1], contacts[list[|list| - 1]])
  }

  /** The attribute that lets an entry stay: a phone number for service ids, else a service id; nothing for groups. */
  predicate Better(c: Contact, slot: Slot) {
    match slot
    case ServiceIdSlot => c.e164.Some?
    case GroupIdSlot => false
    case _ => c.serviceId.Some?
  }

  /** `d` has the value and stands at `i`: the first of the better ones, or if there are none the last of all. */
  ghost predicate EntryAt(list: seq<Id>, contacts: map<Id, Contact>, slot: Slot, v: string, d: Id, i: nat) {
    && i < |list| && list[i] == d && d in contacts && contacts[d].Get(slot) == Some(v)
    && forall j :: 0 <= j < |list| && j != i && list[j] in contacts && contacts[list[j]].Get(slot) == Some(v) ==>
         if Better(contacts[list[j]], slot) then Better(contacts[d], slot) && i < j
         else Better(contacts[d], slot) || j < i
  }

  ghost predicate FilledRight(list: seq<Id>, contacts: map<Id, Contact>, slot: Slot, t: map<string, Id>) {
    && (forall v :: v in t ==> exists i :: EntryAt(list, contacts, slot, v, t[v], i))
    && (forall c <- list :: c in contacts && contacts[c].Get(slot).Some? ==> contacts[c].Get(slot).value in t)
  }

  lemma LoadedContacts(list: seq<Id>, contacts: map<Id, Contact>)
    requires forall c <- list :: c in contacts
    ensures Loaded(list, contacts).contacts == contacts
  {}

  /** In every table the entry is the first of the better conversations, or else the last of all. */
  lemma {:induction false} LoadedIsRight(list: seq<Id>, contacts: map<Id, Contact>, slot: Slot)
    requires forall c <- list :: c in contacts
    ensures FilledRight(list, contacts, slot, Loaded(list, contacts).Index(slot))
  {
    if list != [] {
      var n := |list| - 1;
      LoadedIsRight(list[..n], contacts, slot);
      LoadedContacts(list[..n], contacts);
      FillOne(list[..n], contacts, slot, Loaded(list[..n], contacts).Index(slot), list[n]);
      IndexedByAdd(Loaded(list[..n], contacts), list[n], contacts[list[n]], slot);
      assert list == list[..n] + [list[n]];
    }
  }

  lemma IndexedByAdd(b: Book, c: Id, d: Contact, slot: Slot)
    requires c in b.contacts && b.contacts[c] == d
    ensures AddConversation(b, c, d).Index(slot)
            == Indexed(b.Index(slot), d.Get(slot), c, Better(Entry(b.contacts, b.Index(slot), d.Get(slot)), slot))
  {
    assert b.contacts[c := d] == b.contacts;
  }

  lemma FillOne(list: seq<Id>, contacts: map<Id, Contact>, slot: Slot, t: map<string, Id>, c: Id)
    requires c in contacts && FilledRight(list, contacts, slot, t)
    ensures
      var v := contacts[c].Get(slot);
      FilledRight(list + [c], contacts, slot, Indexed(t, v, c, Better(Entry(contacts, t, v), slot)))
  {
    var own := contacts[c].Get(slot);
    var t' := Indexed(t, own, c, Better(Entry(contacts, t, own), slot));
    forall v | v in t'
      ensures exists i :: EntryAt(list + [c], contacts, slot, v, t'[v], i)
    {
      if v in t {
        var i :| EntryAt(list, contacts, slot, v, t[v], i);
        if own == Some(v) && !Better(contacts[t[v]], slot) {
          EntryReplaced(list, contacts, slot, t, c, v);
        } else {
          assert EntryAt(list + [c], contacts, slot, v, t[v], i);
        }
      } else {
        EntryReplaced(list, contacts, slot, t, c, v);
      }
    }
  }

  lemma EntryReplaced(list: seq<Id>, contacts: map<Id, Contact>, slot: Slot, t: map<string, Id>, c: Id, v: string)
    requires c in contacts && FilledRight(list, contacts, slot, t) && contacts[c].Get(slot) == Some(v)
    requires v in t ==> t[v] in contacts && !Better(contacts[t[v]], slot)
    ensures EntryAt(list + [c], contacts, slot, v, c, |list|)
  {
    if v in t { var i :| EntryAt(list, contacts, slot, v, t[v], i); }
  }

  // ---------------------------------------------------------------- and they stay sound

  /** Whoever lost its number has a rival further to the front, with the number and a service id. */
  ghost predicate StaleBeaten(list: seq<Id>, contacts: map<Id, Contact>, st: State) {
    forall d :: d in st.stale ==> exists i, j :: Beaten(list, contacts, d, i, j)
  }

  predicate Beaten(list: seq<Id>, contacts: map<Id, Contact>, d: Id, i: nat, j: nat) {
    && i < j < |list| && list[j] == d && list[i] in contacts && d in contacts
    && contacts[d].serviceId.Some? && contacts[d].e164.Some?
    && contacts[list[i]].serviceId.Some? && contacts[list[i]].e164 == contacts[d].e164
  }

  lemma PhoneFrame(st: State, kinds: Kinds, c: Id)
    requires Known(st, kinds) && c in kinds
    ensures
      var r := CheckE164(st, kinds, c);
      if Dropping(st, c) then r.stale <= st.stale + {st.byE164[st.contacts[c].e164.value]} else r.stale == st.stale
  {}

  lemma StaleOnlyByDrop(st: State, kinds: Kinds, c: Id)
    requires Known(st, kinds) && c in kinds
    ensures
      var r := Visit(st, kinds, c);
      if Dropping(st, c) then r.stale <= st.stale + {st.byE164[st.contacts[c].e164.value]} else r.stale == st.stale
  {
    var r1 := CheckServiceId(st, kinds, c);
    var r2 := CheckPni(r1, kinds, c);
    var r3 := CheckE164(r2, kinds, c);
    ServiceIdFrame(st, kinds, c);
    PniFrame(r1, kinds, c);
    PhoneFrame(r2, kinds, c);
    GroupFrame(r3, kinds, c);
    assert Dropping(r2, c) == Dropping(st, c);
    assert Visit(st, kinds, c) == r3 || Visit(st, kinds, c) == CheckGroup(r3, kinds, c);
  }

  /** This visit drops the number of a conversation that is the entry of that number at that moment. */
  predicate DropsEntry(t: map<string, Id>, st: State, kinds: Kinds, c: Id)
    requires Known(st, kinds) && c in kinds
  {
    var m := CheckPni(CheckServiceId(st, kinds, c), kinds, c);
    Dropping(m, c)
    && var e := m.contacts[c].e164.value;
       var phones := PhonesLeft(t, m.list, m.stale);
       e in phones && phones[e] == m.byE164[e]
  }

  predicate SomeEntryDropped(t: map<string, Id>, start: State, kinds: Kinds, list: seq<Id>)
    requires Known(start, kinds) && forall c <- list :: c in kinds
  {
    list != [] &&
    (SomeEntryDropped(t, start, kinds, list[1..]) || DropsEntry(t, Visits(start, kinds, list[1..]), kinds, list[0]))
  }

  lemma DropMakesStale(t: map<string, Id>, st: State, kinds: Kinds, contacts: map<Id, Contact>, seen: set<Id>, c: Id)
    requires FiledUnder(t, contacts, E164Slot) && Known(st, kinds) && c in kinds && NumbersKept(contacts, st)
    requires E164sSound(st, seen)
    requires Dropping(st, c)
    ensures
      var e := st.contacts[c].e164.value;
      var phones := PhonesLeft(t, st.list, st.stale);
      SomeStale(t, CheckE164(st, kinds, c).stale)
      <==> SomeStale(t, st.stale) || (e in phones && phones[e] == st.byE164[e])
  {
    var e := st.contacts[c].e164.value;
    var d := st.byE164[e];
    assert HoldsE164(st, d, e);
    EntryWhenDropped(t, st, kinds, contacts, seen, c);
    forall k | k in t && t[k] == d && d in st.list
      ensures k == e
    {
      assert contacts[d].Get(E164Slot) == contacts[d].e164;
    }
  }

  lemma VisitDrops(t: map<string, Id>, st: State, kinds: Kinds, contacts: map<Id, Contact>, seen: set<Id>, c: Id)
    requires FiledUnder(t, contacts, E164Slot) && Known(st, kinds) && c in kinds && NumbersKept(contacts, st)
    requires E164sSound(st, seen)
    ensures SomeStale(t, Visit(st, kinds, c).stale) <==> SomeStale(t, st.stale) || DropsEntry(t, st, kinds, c)
  {
    var r1 := CheckServiceId(st, kinds, c);
    var m := CheckPni(r1, kinds, c);
    ServiceIdFrame(st, kinds, c);
    PniFrame(r1, kinds, c);
    ServiceIdKeepsNumbers(st, kinds, contacts, c);
    PniKeepsNumbers(r1, kinds, contacts, c);
    PhoneFrame(m, kinds, c);
    GroupFrame(CheckE164(m, kinds, c), kinds, c);
    if Dropping(m, c) {
      SameSound(st, m, seen);
      DropMakesStale(t, m, kinds, contacts, seen, c);
    }
  }

  lemma SameSound(st: State, m: State, seen: set<Id>)
    requires E164sSound(st, seen) && m.byE164 == st.byE164 && m.contacts == st.contacts
    ensures E164sSound(m, seen)
  {
    assert forall x, e :: HoldsE164(m, x, e) <==> HoldsE164(st, x, e);
  }

  lemma {:induction false} DropsAfter(
    t: map<string, Id>, list: seq<Id>, kinds: Kinds, contacts: map<Id, Contact>, todo: seq<Id>, done: seq<Id>)
    requires Checkable(list, kinds, contacts) && todo + done == list && FiledUnder(t, contacts, E164Slot)
    ensures
      var start := Initial(list, contacts);
      SomeStale(t, Visits(start, kinds, done).stale) <==> SomeEntryDropped(t, start, kinds, done)
    decreases |done|
  {
    if done != [] {
      var c, before := done[0], done[1..];
      assert todo + [c] + before == list;
      DropsAfter(t, list, kinds, contacts, todo + [c], before);
      AfterVisits(list, kinds, contacts, todo + [c], before);
      VisitingNext(list, kinds, contacts, todo, c, before);
      VisitDrops(t, Visits(Initial(list, contacts), kinds, before), kinds, contacts, Elements(before), c);
    }
  }

  /** An entry ends up without its number exactly if some visit dropped the number of its entry at that moment. */
  lemma StaleIffDropped(t: map<string, Id>, list: seq<Id>, kinds: Kinds, contacts: map<Id, Contact>)
    requires Checkable(list, kinds, contacts) && FiledUnder(t, contacts, E164Slot)
    ensures
      SomeStale(t, Check(list, kinds, contacts).stale) <==> SomeEntryDropped(t, Initial(list, contacts), kinds, list)
  {
    DropsAfter(t, list, kinds, contacts, [], list);
  }

  lemma VisitKeepsBeaten(
    list: seq<Id>, kinds: Kinds, contacts: map<Id, Contact>, st: State, todo: seq<Id>, c: Id, done: seq<Id>)
    requires todo + [c] + done == list && c !in done && Known(st, kinds) && c in contacts && contacts.Keys == kinds.Keys
    requires E164sSound(st, Elements(done)) && Dropped(contacts, st.contacts, Elements(done))
    requires StaleBeaten(list, contacts, st)
    ensures StaleBeaten(list, contacts, Visit(st, kinds, c))
  {
    StaleOnlyByDrop(st, kinds, c);
    if Dropping(st, c) {
      var e := st.contacts[c].e164.value;
      var d := st.byE164[e];
      assert HoldsE164(st, d, e) && d in Elements(done);
      DroppedIsBeaten(list, contacts, st.contacts, Elements(done), todo, c, done, d);
    }
  }

  lemma DroppedIsBeaten(
    list: seq<Id>, contacts: map<Id, Contact>, now: map<Id, Contact>, seen: set<Id>, todo: seq<Id>, c: Id,
    done: seq<Id>, d: Id)
    requires todo + [c] + done == list && Dropped(contacts, now, seen) && c !in seen && c in contacts && d in done
    requires d in contacts
    requires now[c].serviceId.Some? && now[d].serviceId.Some? && now[c].e164.Some? && now[c].e164 == now[d].e164
    ensures exists i, j :: Beaten(list, contacts, d, i, j)
  {
    var k :| 0 <= k < |done| && done[k] == d;
    assert list[|todo|] == c && list[|todo| + 1 + k] == d;
    assert Beaten(list, contacts, d, |todo|, |todo| + 1 + k);
  }

  lemma {:induction false} AfterVisits(
    list: seq<Id>, kinds: Kinds, contacts: map<Id, Contact>, todo: seq<Id>, done: seq<Id>)
    requires Checkable(list, kinds, contacts) && todo + done == list
    ensures
      var r := Visits(Initial(list, contacts), kinds, done);
      NumbersKept(contacts, r) && StaleBeaten(list, contacts, r)
    decreases |done|
  {
    if done != [] {
      var c, before := done[0], done[1..];
      assert todo + [c] + before == list;
      var st := Visits(Initial(list, contacts), kinds, before);
      AfterVisits(list, kinds, contacts, todo + [c], before);
      VisitingNext(list, kinds, contacts, todo, c, before);
      VisitKeepsNumbers(st, kinds, contacts, c);
      VisitKeepsBeaten(list, kinds, contacts, st, todo, c, before);
    }
  }

  /** A table filled in list order never has a conversation under its number that loses it: a rival comes first. */
  lemma FilledIsNeverStale(list: seq<Id>, kinds: Kinds, contacts: map<Id, Contact>)
    requires Checkable(list, kinds, contacts)
    ensures
      var t := Loaded(list, contacts).byE164;
      forall k :: k in t ==> t[k] !in Check(list, kinds, contacts).stale
  {
    var r, t := Check(list, kinds, contacts), Loaded(list, contacts).byE164;
    AfterVisits(list, kinds, contacts, [], list);
    forall k | k in t
      ensures t[k] !in r.stale
    {
      LoadedIsUnbeaten(list, contacts, k);
    }
  }

  lemma LoadedIsUnbeaten(list: seq<Id>, contacts: map<Id, Contact>, k: string)
    requires NoDuplicates(list) && (forall c <- list :: c in contacts) && k in Loaded(list, contacts).byE164
    ensures forall i, j :: !Beaten(list, contacts, Loaded(list, contacts).byE164[k], i, j)
  {
    var t := Loaded(list, contacts).Index(E164Slot);
    LoadedIsRight(list, contacts, E164Slot);
    var n :| EntryAt(list, contacts, E164Slot, k, t[k], n);
    EntryIsUnbeaten(list, contacts, k, t[k], n);
  }

  lemma EntryIsUnbeaten(list: seq<Id>, contacts: map<Id, Contact>, e: string, d: Id, n: nat)
    requires NoDuplicates(list) && EntryAt(list, contacts, E164Slot, e, d, n)
    ensures forall i, j :: !Beaten(list, contacts, d, i, j)
  {
    assert forall x :: x in contacts ==> contacts[x].Get(E164Slot) == contacts[x].e164;
  }

  /** Otherwise it can: two contacts share a number, and the table has the one that is visited first. */
  lemma EntryGoesStale(list: seq<Id>, kinds: Kinds, contacts: map<Id, Contact>, t: map<string, Id>)
    requires list == ["b", "a"] && kinds == map["a" := Direct, "b" := Direct] && contacts.Keys == kinds.Keys
    requires contacts["a"] == Contact(Some("A"), Some("1"), None, None)
    requires contacts["b"] == Contact(Some("B"), Some("1"), None, None)
    requires t == map["1" := "a"]
    ensures Checkable(list, kinds, contacts) && FiledUnder(t, contacts, E164Slot)
    ensures var r := Check(list, kinds, contacts); r.list == list && r.stale == {"a"} && t["1"] in r.stale
  {
    var s0 := Initial(list, contacts);
    var s1 := Visit(s0, kinds, "a");
    assert s1 == s0.(byServiceId := map["A" := "a"], byE164 := map["1" := "a"]);
    var s2 := Visit(s1, kinds, "b");
    assert s2.list == list && s2.stale == {"a"};
    assert list[1..] == ["a"] && ["a"][1..] == [];
    assert Visits(s0, kinds, ["a"]) == s1;
  }
}
