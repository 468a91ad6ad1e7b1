/**
 What the conflict check achieves for every store: the survivors share no identifier, every
 conversation survives or was combined away exactly once, and which of them cannot lose.
 */
module ConflictProofs {
  import opened Wrappers
  import opened Lists
  import opened ContactBook
  import opened ContactMerge
  import opened ConflictRules

  /** Groups hold no personal identifier. */
  ghost predicate OnlyDirect(kinds: Kinds, contacts: map<Id, Contact>) {
    forall c :: c in kinds && c in contacts && !kinds[c].Direct? ==> contacts[c].Bare()
  }

  function GroupOf(st: State, kinds: Kinds, c: Id): Option<string> {
    if c in kinds && c in st.contacts then GroupV2IdOf(kinds[c], st.contacts[c]) else None
  }

  ghost predicate HoldsId(st: State, c: Id, v: string) { c in st.contacts && st.contacts[c].Holds(v) }

  ghost predicate HoldsE164(st: State, c: Id, e: string) { c in st.contacts && st.contacts[c].e164 == Some(e) }

  // ---------------------------------------------------------------- what the tables know

  /** Entries are conversations seen before that have the key. */
  ghost predicate Sound(st: State, kinds: Kinds, seen: set<Id>) {
    && (forall v :: v in st.byServiceId ==> st.byServiceId[v] in seen && HoldsId(st, st.byServiceId[v], v))
    && E164sSound(st, seen) && GroupsSound(st, kinds, seen)
  }

  ghost predicate E164sSound(st: State, seen: set<Id>) {
    forall e :: e in st.byE164 ==> st.byE164[e] in seen && HoldsE164(st, st.byE164[e], e)
  }

  ghost predicate GroupsSound(st: State, kinds: Kinds, seen: set<Id>) {
    forall g :: g in st.byGroupV2Id ==> st.byGroupV2Id[g] in seen && GroupOf(st, kinds, st.byGroupV2Id[g]) == Some(g)
  }

  /** A seen conversation that is still there is the entry of each of its identifiers. */
  ghost predicate IdsKept(st: State, seen: set<Id>) {
    forall c, v :: c in seen && c in st.list && HoldsId(st, c, v) ==> v in st.byServiceId && st.byServiceId[v] == c
  }

  ghost predicate E164sKept(st: State, seen: set<Id>) {
    forall c, e :: c in seen && c in st.list && HoldsE164(st, c, e) ==> e in st.byE164 && st.byE164[e] == c
  }

  /** Of the groups seen one is left for each id, of version two if any of them is. */
  ghost predicate GroupsKept(st: State, kinds: Kinds, seen: set<Id>) {
    && (forall g :: g in st.byGroupV2Id ==> st.byGroupV2Id[g] in st.list)
    && (forall c, g :: c in seen && GroupOf(st, kinds, c) == Some(g) ==>
          && g in st.byGroupV2Id
          && (c in st.list ==> st.byGroupV2Id[g] == c)
          && (kinds[c].GroupV2? ==> st.byGroupV2Id[g] in kinds && kinds[st.byGroupV2Id[g]].GroupV2?))
  }

  ghost predicate Tracked(st: State, kinds: Kinds, seen: set<Id>) {
    && Known(st, kinds) && OnlyDirect(kinds, st.contacts) && NoDuplicates(st.list)
    && Sound(st, kinds, seen) && IdsKept(st, seen) && E164sKept(st, seen) && GroupsKept(st, kinds, seen)
  }

  // ---------------------------------------------------------------- one combination

  /**
   Combining takes the obsolete conversation from the list and notes the merge, exactly if it is still listed and both
   are contacts or both are groups; nothing else is touched.
   */
  lemma CombineIs(st: State, kinds: Kinds, current: Id, obsolete: Id)
    requires current in kinds && obsolete in kinds && NoDuplicates(st.list)
    ensures
      var r := Combine(st, kinds, current, obsolete);
      var combines := obsolete in st.list && (kinds[current].Direct? <==> kinds[obsolete].Direct?);
      && r == st.(list := r.list, merges := r.merges)
      && r.merges == (if combines then st.merges + [Merge(current, obsolete)] else st.merges)
      && (forall x :: x in r.list <==> x in st.list && !(combines && x == obsolete))
  {
    if obsolete in st.list { WithoutMember(st.list, obsolete); }
  }

  lemma CombineRemoves(st: State, kinds: Kinds, current: Id, obsolete: Id)
    requires current in kinds && obsolete in kinds && kinds[current].Direct? == kinds[obsolete].Direct?
    requires NoDuplicates(st.list)
    ensures
      var r := Combine(st, kinds, current, obsolete);
      && r == st.(list := r.list, merges := r.merges) && NoDuplicates(r.list)
      && obsolete !in r.list
      && (forall x <- r.list :: x in st.list)
      && (forall x <- st.list :: x != obsolete ==> x in r.list)
  {
    if obsolete in st.list { WithoutMember(st.list, obsolete); }
  }

  lemma HolderIsDirect(st: State, kinds: Kinds, c: Id)
    requires Known(st, kinds) && OnlyDirect(kinds, st.contacts) && c in kinds && !st.contacts[c].Bare()
    ensures kinds[c].Direct?
  {}

  /** What every phase keeps while it removes conversations that hold identifiers. */
  ghost predicate Shrunk(st: State, r: State, kinds: Kinds) {
    && r.contacts == st.contacts && NoDuplicates(r.list)
    && (forall x <- r.list :: x in st.list)
    && (forall x <- st.list :: x in kinds && !kinds[x].Direct? ==> x in r.list)
  }

  /** Between the two: `c` is entered under its service id but perhaps not yet under its PNI. */
  ghost predicate HalfKept(st: State, seen: set<Id>, c: Id) {
    && IdsKept(st, seen) && c in st.contacts
    && (forall v :: v in st.byServiceId ==>
          && HoldsId(st, st.byServiceId[v], v)
          && (st.byServiceId[v] in seen || (st.byServiceId[v] == c && st.contacts[c].serviceId == Some(v))))
    && (c in st.list && st.contacts[c].serviceId.Some? ==>
          st.contacts[c].serviceId.value in st.byServiceId && st.byServiceId[st.contacts[c].serviceId.value] == c)
  }

  lemma ServiceIdShrinks(st: State, kinds: Kinds, c: Id)
    requires Known(st, kinds) && OnlyDirect(kinds, st.contacts) && NoDuplicates(st.list) && c in kinds
    requires forall v :: v in st.byServiceId ==> HoldsId(st, st.byServiceId[v], v)
    ensures
      var r, v := CheckServiceId(st, kinds, c), st.contacts[c].serviceId;
      && Shrunk(st, r, kinds) && r.byE164 == st.byE164 && r.byGroupV2Id == st.byGroupV2Id
      && if v.None? then r.byServiceId == st.byServiceId
         else if v.value !in st.byServiceId then r.byServiceId == st.byServiceId[v.value := c]
         else if st.contacts[c].e164.Some? then
           r.byServiceId == st.byServiceId[v.value := c] && st.byServiceId[v.value] !in r.list
         else r.byServiceId == st.byServiceId && c !in r.list
  {
    if st.contacts[c].serviceId.Some? && st.contacts[c].serviceId.value in st.byServiceId {
      var v := st.contacts[c].serviceId.value;
      var d := st.byServiceId[v];
      assert HoldsId(st, d, v);
      HolderIsDirect(st, kinds, c);
      HolderIsDirect(st, kinds, d);
      CombineRemoves(st, kinds, c, d);
      CombineRemoves(st, kinds, d, c);
    }
  }

  lemma ServiceIdPhase(st: State, kinds: Kinds, seen: set<Id>, c: Id)
    requires Tracked(st, kinds, seen) && c in kinds && c !in seen
    ensures
      var r := CheckServiceId(st, kinds, c);
      && Shrunk(st, r, kinds) && r.byE164 == st.byE164 && r.byGroupV2Id == st.byGroupV2Id
      && HalfKept(r, seen, c)
  {
    ServiceIdShrinks(st, kinds, c);
    assert forall x, v :: HoldsId(CheckServiceId(st, kinds, c), x, v) <==> HoldsId(st, x, v);
  }

  /** The assertion on the PNI branch never fires: a conversation meets itself only with equal ids. */
  lemma MeetsItself(st: State, seen: set<Id>, c: Id)
    requires HalfKept(st, seen, c) && c !in seen && st.contacts[c].pni.Some?
    requires st.contacts[c].pni.value in st.byServiceId && st.byServiceId[st.contacts[c].pni.value] == c
    ensures st.contacts[c].pni == st.contacts[c].serviceId
  {}

  lemma PniShrinks(st: State, kinds: Kinds, c: Id)
    requires Known(st, kinds) && OnlyDirect(kinds, st.contacts) && NoDuplicates(st.list) && c in kinds
    requires forall v :: v in st.byServiceId ==> HoldsId(st, st.byServiceId[v], v)
    ensures
      var r := CheckPni(st, kinds, c);
      var pni := st.contacts[c].pni;
      && Shrunk(st, r, kinds) && r.byE164 == st.byE164 && r.byGroupV2Id == st.byGroupV2Id
      && r.byServiceId == (if pni.Some? then st.byServiceId[pni.value := c] else st.byServiceId)
      && (pni.Some? && pni.value in st.byServiceId && st.byServiceId[pni.value] != c ==>
           st.byServiceId[pni.value] !in r.list)
  {
    if st.contacts[c].pni.Some? && st.contacts[c].pni.value in st.byServiceId {
      var v := st.contacts[c].pni.value;
      var d := st.byServiceId[v];
      assert HoldsId(st, d, v);
      HolderIsDirect(st, kinds, c);
      HolderIsDirect(st, kinds, d);
      CombineRemoves(st, kinds, c, d);
    }
  }

  lemma PniPhase(st: State, kinds: Kinds, seen: set<Id>, c: Id)
    requires Known(st, kinds) && OnlyDirect(kinds, st.contacts) && NoDuplicates(st.list)
    requires HalfKept(st, seen, c) && c in kinds && c !in seen
    ensures
      var r := CheckPni(st, kinds, c);
      && Shrunk(st, r, kinds) && r.byE164 == st.byE164 && r.byGroupV2Id == st.byGroupV2Id
      && IdsKept(r, seen + {c})
      && (forall v :: v in r.byServiceId ==> r.byServiceId[v] in seen + {c} && HoldsId(r, r.byServiceId[v], v))
  {
    var r := CheckPni(st, kinds, c);
    PniShrinks(st, kinds, c);
    assert forall x, v :: HoldsId(r, x, v) <==> HoldsId(st, x, v);
  }

  /** Both rank: the phone number stays with the conversation visited now. */
  lemma DropPhase(st: State, kinds: Kinds, seen: set<Id>, c: Id)
    requires Known(st, kinds) && E164sKept(st, seen) && E164sSound(st, seen) && c in kinds && c !in seen
    requires Dropping(st, c)
    ensures
      var r := CheckE164(st, kinds, c);
      && r.list == st.list && r.byServiceId == st.byServiceId && r.byGroupV2Id == st.byGroupV2Id
      && E164sKept(r, seen + {c}) && E164sSound(r, seen + {c})
  {}

  lemma PhoneShrinks(st: State, kinds: Kinds, c: Id)
    requires Known(st, kinds) && OnlyDirect(kinds, st.contacts) && NoDuplicates(st.list)
    requires c in kinds && !Dropping(st, c)
    requires forall e :: e in st.byE164 ==> HoldsE164(st, st.byE164[e], e)
    ensures
      var r, e := CheckE164(st, kinds, c), st.contacts[c].e164;
      && Shrunk(st, r, kinds) && r.byServiceId == st.byServiceId && r.byGroupV2Id == st.byGroupV2Id
      && if e.None? then r.byE164 == st.byE164
         else if e.value !in st.byE164 then r.byE164 == st.byE164[e.value := c]
         else if st.contacts[c].serviceId.Some? then
           r.byE164 == st.byE164[e.value := c] && st.byE164[e.value] !in r.list
         else r.byE164 == st.byE164 && c !in r.list
  {
    if st.contacts[c].e164.Some? && st.contacts[c].e164.value in st.byE164 {
      var e := st.contacts[c].e164.value;
      var d := st.byE164[e];
      assert HoldsE164(st, d, e);
      HolderIsDirect(st, kinds, c);
      HolderIsDirect(st, kinds, d);
      CombineRemoves(st, kinds, c, d);
      CombineRemoves(st, kinds, d, c);
    }
  }

  lemma E164Phase(st: State, kinds: Kinds, seen: set<Id>, c: Id)
    requires Known(st, kinds) && OnlyDirect(kinds, st.contacts) && NoDuplicates(st.list)
    requires E164sKept(st, seen) && E164sSound(st, seen) && c in kinds && c !in seen && !Dropping(st, c)
    ensures
      var r := CheckE164(st, kinds, c);
      && Shrunk(st, r, kinds) && r.byServiceId == st.byServiceId && r.byGroupV2Id == st.byGroupV2Id
      && E164sKept(r, seen + {c}) && E164sSound(r, seen + {c})
  {
    PhoneShrinks(st, kinds, c);
    assert forall x, e :: HoldsE164(CheckE164(st, kinds, c), x, e) <==> HoldsE164(st, x, e);
  }

  /** Only phone numbers are ever dropped, of conversations seen before that have a service id. */
  ghost predicate Dropped(contacts: map<Id, Contact>, contacts': map<Id, Contact>, seen: set<Id>) {
    && contacts'.Keys == contacts.Keys
    && forall x :: x in contacts ==>
         contacts'[x] == contacts[x]
         || (x in seen && contacts[x].serviceId.Some? && contacts'[x] == contacts[x].(e164 := None))
  }

  lemma E164Drops(st: State, kinds: Kinds, seen: set<Id>, c: Id)
    requires Known(st, kinds) && c in kinds
    requires forall e :: e in st.byE164 ==> st.byE164[e] in seen
    ensures Dropped(st.contacts, CheckE164(st, kinds, c).contacts, seen)
  {}

  lemma GroupPhaseSound(st: State, kinds: Kinds, seen: set<Id>, c: Id)
    requires Known(st, kinds) && NoDuplicates(st.list) && GroupsSound(st, kinds, seen)
    requires c in kinds && c !in seen && !kinds[c].Direct?
    ensures
      var r := CheckGroup(st, kinds, c);
      && r == st.(list := r.list, merges := r.merges, byGroupV2Id := r.byGroupV2Id)
      && NoDuplicates(r.list) && (forall x <- r.list :: x in st.list)
      && GroupsSound(r, kinds, seen + {c})
  {
    var r := CheckGroup(st, kinds, c);
    var g := GroupV2IdOf(kinds[c], st.contacts[c]);
    if g.Some? && g.value in st.byGroupV2Id {
      var d := st.byGroupV2Id[g.value];
      assert GroupOf(st, kinds, d) == g && !kinds[d].Direct?;
      CombineRemoves(st, kinds, c, d);
      CombineRemoves(st, kinds, d, c);
    }
    assert forall x :: GroupOf(r, kinds, x) == GroupOf(st, kinds, x);
  }

  /** A group id seen for the first time, or none at all. */
  lemma GroupFirst(st: State, kinds: Kinds, seen: set<Id>, c: Id)
    requires Known(st, kinds) && GroupsKept(st, kinds, seen)
    requires c in kinds && c !in seen && c in st.list
    requires !(GroupOf(st, kinds, c).Some? && GroupOf(st, kinds, c).value in st.byGroupV2Id)
    ensures GroupsKept(CheckGroup(st, kinds, c), kinds, seen + {c})
  {
    var r := CheckGroup(st, kinds, c);
    assert forall x :: GroupOf(r, kinds, x) == GroupOf(st, kinds, x);
  }

  lemma GroupConflict(st: State, kinds: Kinds, seen: set<Id>, c: Id)
    requires Known(st, kinds) && NoDuplicates(st.list) && GroupsSound(st, kinds, seen) && GroupsKept(st, kinds, seen)
    requires c in kinds && c !in seen && c in st.list && !kinds[c].Direct?
    requires GroupOf(st, kinds, c).Some? && GroupOf(st, kinds, c).value in st.byGroupV2Id
    ensures GroupsKept(CheckGroup(st, kinds, c), kinds, seen + {c})
  {
    var r := CheckGroup(st, kinds, c);
    var d := st.byGroupV2Id[GroupOf(st, kinds, c).value];
    assert GroupOf(st, kinds, d) == GroupOf(st, kinds, c) && d in seen && !kinds[d].Direct?;
    assert forall x :: GroupOf(r, kinds, x) == GroupOf(st, kinds, x);
    if kinds[c].GroupV2? && !kinds[d].GroupV2? {
      CombineRemoves(st, kinds, c, d);
      GroupReplaced(st, r, kinds, seen, c, d, GroupOf(st, kinds, c).value);
    } else {
      CombineRemoves(st, kinds, d, c);
      GroupStays(st, r, kinds, seen, c, d, GroupOf(st, kinds, c).value);
    }
  }

  lemma GroupReplaced(st: State, r: State, kinds: Kinds, seen: set<Id>, c: Id, d: Id, g: string)
    requires GroupsKept(st, kinds, seen) && c in kinds && c !in seen && c in st.list && kinds[c].GroupV2?
    requires g in st.byGroupV2Id && st.byGroupV2Id[g] == d && GroupOf(st, kinds, c) == GroupOf(st, kinds, d) == Some(g)
    requires d in seen && d !in r.list && (forall x <- r.list :: x in st.list)
    requires forall x <- st.list :: x != d ==> x in r.list
    requires r.byGroupV2Id == st.byGroupV2Id[g := c] && forall x :: GroupOf(r, kinds, x) == GroupOf(st, kinds, x)
    requires forall k :: k in st.byGroupV2Id ==> GroupOf(st, kinds, st.byGroupV2Id[k]) == Some(k)
    ensures GroupsKept(r, kinds, seen + {c})
  {}

  lemma GroupStays(st: State, r: State, kinds: Kinds, seen: set<Id>, c: Id, d: Id, g: string)
    requires GroupsKept(st, kinds, seen) && c in kinds && c !in seen && d in kinds && d in seen
    requires kinds[c].GroupV2? ==> kinds[d].GroupV2?
    requires g in st.byGroupV2Id && st.byGroupV2Id[g] == d && GroupOf(st, kinds, c) == Some(g)
    requires c !in r.list && (forall x <- r.list :: x in st.list) && forall x <- st.list :: x != c ==> x in r.list
    requires r.byGroupV2Id == st.byGroupV2Id && forall x :: GroupOf(r, kinds, x) == GroupOf(st, kinds, x)
    requires forall k :: k in st.byGroupV2Id ==> st.byGroupV2Id[k] in seen
    ensures GroupsKept(r, kinds, seen + {c})
  {}

  lemma GroupPhaseKept(st: State, kinds: Kinds, seen: set<Id>, c: Id)
    requires Known(st, kinds) && NoDuplicates(st.list) && GroupsSound(st, kinds, seen) && GroupsKept(st, kinds, seen)
    requires c in kinds && c !in seen && c in st.list && !kinds[c].Direct?
    ensures GroupsKept(CheckGroup(st, kinds, c), kinds, seen + {c})
  {
    var g := GroupOf(st, kinds, c);
    if g.Some? && g.value in st.byGroupV2Id {
      GroupConflict(st, kinds, seen, c);
    } else {
      GroupFirst(st, kinds, seen, c);
    }
  }

  // ---------------------------------------------------------------- one visit

  lemma ShrunkE164s(st: State, r: State, kinds: Kinds, seen: set<Id>)
    requires Shrunk(st, r, kinds) && r.byE164 == st.byE164 && E164sSound(st, seen) && E164sKept(st, seen)
    ensures E164sSound(r, seen) && E164sKept(r, seen)
  {}

  lemma ShrunkIds(st: State, r: State, kinds: Kinds, seen: set<Id>)
    requires Shrunk(st, r.(contacts := st.contacts), kinds) && r.byServiceId == st.byServiceId && IdsKept(st, seen)
    requires forall v :: v in st.byServiceId ==> st.byServiceId[v] in seen && HoldsId(st, st.byServiceId[v], v)
    requires forall x, v :: HoldsId(r, x, v) <==> HoldsId(st, x, v)
    ensures IdsKept(r, seen)
    ensures forall v :: v in r.byServiceId ==> r.byServiceId[v] in seen && HoldsId(r, r.byServiceId[v], v)
  {}

  /** Dropping a phone number does not touch the other identifiers. */
  lemma DropsFrame(st: State, r: State, kinds: Kinds, seen: set<Id>)
    requires Dropped(st.contacts, r.contacts, seen)
    ensures forall x, v :: HoldsId(r, x, v) <==> HoldsId(st, x, v)
    ensures forall x :: GroupOf(r, kinds, x) == GroupOf(st, kinds, x)
    ensures OnlyDirect(kinds, st.contacts) ==> OnlyDirect(kinds, r.contacts)
  {}

  lemma E164Step(st: State, kinds: Kinds, seen: set<Id>, c: Id)
    requires Known(st, kinds) && OnlyDirect(kinds, st.contacts) && NoDuplicates(st.list)
    requires E164sKept(st, seen) && E164sSound(st, seen) && c in kinds && c !in seen
    ensures
      var r := CheckE164(st, kinds, c);
      && Shrunk(st, r.(contacts := st.contacts), kinds) && Dropped(st.contacts, r.contacts, seen)
      && r.byServiceId == st.byServiceId && r.byGroupV2Id == st.byGroupV2Id
      && E164sKept(r, seen + {c}) && E164sSound(r, seen + {c})
  {
    if Dropping(st, c) { DropPhase(st, kinds, seen, c); } else { E164Phase(st, kinds, seen, c); }
    E164Drops(st, kinds, seen, c);
  }

  lemma DirectGroups(st: State, kinds: Kinds, seen: set<Id>, c: Id)
    requires GroupsSound(st, kinds, seen) && GroupsKept(st, kinds, seen) && c in kinds && kinds[c].Direct?
    ensures GroupsSound(st, kinds, seen + {c}) && GroupsKept(st, kinds, seen + {c})
  {}

  lemma VisitDirect(st: State, kinds: Kinds, seen: set<Id>, c: Id)
    requires Tracked(st, kinds, seen) && c in kinds && c !in seen && kinds[c].Direct?
    ensures Tracked(Visit(st, kinds, c), kinds, seen + {c})
    ensures Dropped(st.contacts, Visit(st, kinds, c).contacts, seen)
  {
    var r1 := CheckServiceId(st, kinds, c);
    var r2 := CheckPni(r1, kinds, c);
    var r3 := CheckE164(r2, kinds, c);
    assert Visit(st, kinds, c) == r3;
    ServiceIdPhase(st, kinds, seen, c);
    assert forall x :: GroupOf(r1, kinds, x) == GroupOf(st, kinds, x);
    ShrunkGroups(st, r1, kinds, seen);
    ShrunkE164s(st, r1, kinds, seen);
    PniPhase(r1, kinds, seen, c);
    assert forall x :: GroupOf(r2, kinds, x) == GroupOf(r1, kinds, x);
    ShrunkGroups(r1, r2, kinds, seen);
    ShrunkE164s(r1, r2, kinds, seen);
    E164Step(r2, kinds, seen, c);
    DropsFrame(r2, r3, kinds, seen);
    ShrunkIds(r2, r3, kinds, seen + {c});
    ShrunkGroups(r2, r3, kinds, seen);
    DirectGroups(r3, kinds, seen, c);
  }

  lemma ShrunkGroups(st: State, r: State, kinds: Kinds, seen: set<Id>)
    requires Shrunk(st, r.(contacts := st.contacts), kinds) && r.byGroupV2Id == st.byGroupV2Id
    requires GroupsSound(st, kinds, seen) && GroupsKept(st, kinds, seen)
    requires forall x :: GroupOf(r, kinds, x) == GroupOf(st, kinds, x)
    ensures GroupsSound(r, kinds, seen) && GroupsKept(r, kinds, seen)
  {}

  /** A group is looked up by its version two id only. */
  lemma VisitGroup(st: State, kinds: Kinds, seen: set<Id>, c: Id)
    requires Tracked(st, kinds, seen) && c in kinds && c !in seen && c in st.list && !kinds[c].Direct?
    ensures Tracked(Visit(st, kinds, c), kinds, seen + {c})
    ensures Visit(st, kinds, c).contacts == st.contacts
  {
    assert st.contacts[c].Bare();
    assert Visit(st, kinds, c) == CheckGroup(st, kinds, c);
    GroupPhaseSound(st, kinds, seen, c);
    GroupPhaseKept(st, kinds, seen, c);
    VisitGroupFrame(st, CheckGroup(st, kinds, c), kinds, seen, c);
  }

  lemma VisitGroupFrame(st: State, r: State, kinds: Kinds, seen: set<Id>, c: Id)
    requires r == st.(list := r.list, merges := r.merges, byGroupV2Id := r.byGroupV2Id)
    requires c in st.contacts && st.contacts[c].Bare() && forall x <- r.list :: x in st.list
    requires Sound(st, kinds, seen) && IdsKept(st, seen) && E164sKept(st, seen)
    ensures IdsKept(r, seen + {c}) && E164sKept(r, seen + {c}) && E164sSound(r, seen + {c})
    ensures forall v :: v in r.byServiceId ==> r.byServiceId[v] in seen + {c} && HoldsId(r, r.byServiceId[v], v)
  {}
}
