/**
 The conflict check as it runs: a loop from the end to the front of a list that its own body
 shortens, with three local tables of models. It is proved against `ConflictRules.Check`.
 */
module ConflictCheck {
  import opened Wrappers
  import opened Lists
  import opened ContactBook
  import opened ContactMerge
  import opened ConversationController
  import ConflictRules
  import ConflictProofs
  import ConflictResult
  import opened ConflictTables

  type State = ConflictRules.State

  function IdList(s: seq<ConversationModel>): seq<Id> {
    seq(|s|, i requires 0 <= i < |s| => s[i].id)
  }

  function KindsOf(all: Table): ConflictRules.Kinds { map k | k in all :: all[k].kind }

  lemma {:induction false} IdListWithout(s: seq<ConversationModel>, c: ConversationModel)
    requires forall d <- s :: d.id == c.id ==> d == c
    ensures IdList(Without(s, c)) == Without(IdList(s), c.id)
  {
    if s != [] {
      IdListWithout(s[1..], c);
      assert IdList(s)[1..] == IdList(s[1..]);
    }
  }

  /** No local id is a key of one of the four tables of identifiers. */
  predicate KeysAreIdentifiers(all: Table, svc: Table, phone: Table, pni: Table, group: Table) {
    forall k :: k in all ==> k != "" && k !in phone && "+" + k !in phone && k !in svc && k !in pni && k !in group
  }

  /** `all` are the models the check started with; local ids are not used as identifiers. */
  ghost predicate Fits(ctl: Controller, all: Table)
    reads ctl
  {
    && Listed(ctl.conversations, ctl.byId)
    && (forall k :: k in ctl.byId ==> k in all && all[k] == ctl.byId[k])
    && (forall k :: k in all ==> all[k].id == k)
    && KeysAreIdentifiers(all, ctl.byServiceId, ctl.byE164, ctl.byPni, ctl.byGroupId)
  }

  predicate AllStored(all: Table, t: Table) { forall k :: k in t ==> Stored(all, t[k]) }

  /** Every table has its entries under their own key. */
  ghost predicate AllFiled(b: Book) {
    && FiledUnder(b.byServiceId, b.contacts, ServiceIdSlot) && FiledUnder(b.byE164, b.contacts, E164Slot)
    && FiledUnder(b.byPni, b.contacts, PniSlot) && FiledUnder(b.byGroupId, b.contacts, GroupIdSlot)
  }

  /** The tables are those of the start, `b`, without what was removed. */
  ghost predicate AreLeft(
    svc: Table, phone: Table, pni: Table, group: Table, all: Table, b: Book, list: seq<Id>, stale: set<Id>)
  {
    && AllStored(all, svc) && AllStored(all, phone) && AllStored(all, pni) && AllStored(all, group)
    && Ids(svc) == Left(b.byServiceId, list) && Ids(phone) == PhonesLeft(b.byE164, list, stale)
    && Ids(pni) == Left(b.byPni, list) && Ids(group) == Left(b.byGroupId, list)
  }

  ghost predicate TablesLeft(ctl: Controller, all: Table, b: Book, list: seq<Id>, stale: set<Id>)
    reads ctl
  {
    AreLeft(ctl.byServiceId, ctl.byE164, ctl.byPni, ctl.byGroupId, all, b, list, stale)
  }

  /**
   The specification's state agrees with the controller on list, attributes and, if it started from a
   wired `b`, tables.
   */
  ghost predicate Agrees(ctl: Controller, all: Table, b: Option<Book>, st: State)
    reads ctl, all.Values
  {
    && Fits(ctl, all) && st.list == IdList(ctl.conversations) && st.contacts == Records(all)
    && (b.Some? ==>
          && AllFiled(b.value) && TablesLeft(ctl, all, b.value, st.list, st.stale)
          && NumbersKept(b.value.contacts, st))
  }

  lemma ListedIffId(ctl: Controller, all: Table, c: ConversationModel)
    requires Fits(ctl, all) && Stored(all, c)
    ensures c.id in ctl.byId <==> c in ctl.conversations
    ensures c.id in ctl.byId <==> c.id in IdList(ctl.conversations)
    ensures c.id in ctl.byId ==> Stored(ctl.byId, c)
    ensures forall d <- ctl.conversations :: d.id == c.id ==> d == c
  {
    if c.id in ctl.byId {
      var i :| 0 <= i < |ctl.conversations| && ctl.conversations[i] == c;
      assert IdList(ctl.conversations)[i] == c.id;
    }
  }

  /** Guard and removal of `#doCombineConversations`; the guard makes a repeated merge do nothing. */
  method CombineConversations(
    ctl: Controller, current: ConversationModel, obsolete: ConversationModel, merges0: seq<Merge>,
    ghost all: Table, ghost b: Option<Book>, ghost st: State) returns (merges: seq<Merge>)
    requires Agrees(ctl, all, b, st) && Stored(all, current) && Stored(all, obsolete) && st.merges == merges0
    modifies ctl
    ensures Agrees(ctl, all, b, ConflictRules.Combine(st, KindsOf(all), current.id, obsolete.id))
    ensures ConflictRules.Combine(st, KindsOf(all), current.id, obsolete.id)
            == st.(list := IdList(ctl.conversations), merges := merges)
    ensures obsolete !in old(ctl.conversations) ==> ctl.conversations == old(ctl.conversations) && merges == merges0
  {
    merges := merges0;
    ListedIffId(ctl, all, obsolete);
    var known := ctl.Get(Some(obsolete.id));
    if known == null { return; }
    if obsolete.kind.Direct? != current.kind.Direct? { return; }
    RemoveObsolete(ctl, obsolete, all, b, st);
    merges := merges + [Merge(current.id, obsolete.id)];
    if b.Some? { FewerKeepNumbers(st, IdList(ctl.conversations), merges, b.value.contacts, obsolete.id); }
  }

  lemma FewerKeepNumbers(st: State, list: seq<Id>, merges: seq<Merge>, contacts: map<Id, Contact>, o: Id)
    requires list == Without(st.list, o)
    ensures NumbersKept(contacts, st) ==> NumbersKept(contacts, st.(list := list, merges := merges))
  {
    ConflictTwins.WithoutShrinks(st.list, o);
  }

  lemma RemovedTable(
    all: Table, t: Table, t0: map<string, Id>, contacts: map<Id, Contact>, slot: Slot, st: State, o: ConversationModel)
    requires AllStored(all, t) && Stored(all, o) && (forall k :: k in all ==> all[k].id == k)
    requires Ids(t) == Left(t0, st.list) && FiledUnder(t0, contacts, slot)
    requires o.id in st.list && o.id in contacts && NoDuplicates(st.list)
    ensures
      var t' := Unlisted(t, contacts[o.id].Get(slot), o);
      AllStored(all, t') && Ids(t') == Left(t0, Without(st.list, o.id))
  {
    IdsUnlisted(t, contacts[o.id].Get(slot), o);
    RemovalLeaves(t0, contacts, slot, st, st.(list := Without(st.list, o.id)), o.id);
  }

  lemma RemovedPhones(
    all: Table, t: Table, t0: map<string, Id>, contacts: map<Id, Contact>, st: State, o: ConversationModel)
    requires AllStored(all, t) && Stored(all, o) && (forall k :: k in all ==> all[k].id == k)
    requires Ids(t) == PhonesLeft(t0, st.list, st.stale) && FiledUnder(t0, contacts, E164Slot)
    requires NumbersKept(contacts, st)
    requires o.id in st.list && NoDuplicates(st.list)
    ensures
      var t' := Unlisted(t, st.contacts[o.id].e164, o);
      AllStored(all, t') && Ids(t') == PhonesLeft(t0, Without(st.list, o.id), st.stale)
  {
    IdsUnlisted(t, st.contacts[o.id].e164, o);
    RemovalLeavesPhones(t0, contacts, st, st.(list := Without(st.list, o.id)), o.id);
  }

  lemma RemovedTables(
    svc: Table, phone: Table, pni: Table, group: Table, all: Table, b: Book, st: State, o: ConversationModel)
    requires AreLeft(svc, phone, pni, group, all, b, st.list, st.stale) && AllFiled(b) && NumbersKept(b.contacts, st)
    requires Stored(all, o) && (forall k :: k in all ==> all[k].id == k) && o.id in st.list && NoDuplicates(st.list)
    requires o.id in st.contacts && st.contacts[o.id] == o.Attributes()
    ensures AreLeft(Unlisted(svc, o.serviceId, o), Unlisted(phone, o.e164, o), Unlisted(pni, o.pni, o),
                    Unlisted(group, o.groupId, o), all, b, Without(st.list, o.id), st.stale)
  {
    var was := b.contacts[o.id];
    assert was.serviceId == o.serviceId && was.pni == o.pni && was.groupId == o.groupId;
    RemovedTable(all, svc, b.byServiceId, b.contacts, ServiceIdSlot, st, o);
    RemovedPhones(all, phone, b.byE164, b.contacts, st, o);
    RemovedTable(all, pni, b.byPni, b.contacts, PniSlot, st, o);
    RemovedTable(all, group, b.byGroupId, b.contacts, GroupIdSlot, st, o);
  }

  lemma ListedIds(conversations: seq<ConversationModel>, all: Table)
    requires Listed(conversations, all)
    ensures NoDuplicates(IdList(conversations)) && forall x <- IdList(conversations) :: x in all
  {}

  lemma FewerKeys(all: Table, svc: Table, phone: Table, pni: Table, group: Table, o: ConversationModel)
    requires KeysAreIdentifiers(all, svc, phone, pni, group)
    ensures KeysAreIdentifiers(all, Unlisted(svc, o.serviceId, o), Unlisted(phone, o.e164, o), Unlisted(pni, o.pni, o),
                               Unlisted(group, o.groupId, o))
  {}

  /** The tables of the controller once the model is not in them any more. */
  ghost predicate ReadyToRemove(
    ctl: Controller, all: Table, b: Option<Book>, list: seq<Id>, stale: set<Id>, o: ConversationModel)
    reads ctl, o
  {
    var svc, phone := Unlisted(ctl.byServiceId, o.serviceId, o), Unlisted(ctl.byE164, o.e164, o);
    var pni, group := Unlisted(ctl.byPni, o.pni, o), Unlisted(ctl.byGroupId, o.groupId, o);
    && Stored(ctl.byId, o) && KeysAreIdentifiers(all, svc, phone, pni, group)
    && (b.Some? ==> AreLeft(svc, phone, pni, group, all, b.value, list, stale))
  }

  lemma RemovableObsolete(ctl: Controller, all: Table, b: Option<Book>, st: State, o: ConversationModel)
    requires Agrees(ctl, all, b, st) && Stored(all, o) && o.id in ctl.byId
    ensures ReadyToRemove(ctl, all, b, Without(st.list, o.id), st.stale, o)
    ensures IdList(Without(ctl.conversations, o)) == Without(st.list, o.id)
  {
    ListedIffId(ctl, all, o);
    IdListWithout(ctl.conversations, o);
    ListedIds(ctl.conversations, ctl.byId);
    FewerKeys(all, ctl.byServiceId, ctl.byE164, ctl.byPni, ctl.byGroupId, o);
    if b.Some? { RemovedTables(ctl.byServiceId, ctl.byE164, ctl.byPni, ctl.byGroupId, all, b.value, st, o); }
  }

  method RemoveReady(
    ctl: Controller, obsolete: ConversationModel,
    ghost all: Table, ghost b: Option<Book>, ghost list: seq<Id>, ghost stale: set<Id>)
    requires Fits(ctl, all) && ReadyToRemove(ctl, all, b, list, stale, obsolete)
    modifies ctl
    ensures Fits(ctl, all) && ctl.conversations == Without(old(ctl.conversations), obsolete)
    ensures b.Some? ==> TablesLeft(ctl, all, b.value, list, stale)
  {
    ctl.RemoveConversation(obsolete);
  }

  method RemoveObsolete(
    ctl: Controller, obsolete: ConversationModel, ghost all: Table, ghost b: Option<Book>, ghost st: State)
    requires Agrees(ctl, all, b, st) && Stored(all, obsolete) && obsolete.id in ctl.byId
    modifies ctl
    ensures Fits(ctl, all) && Records(all) == old(Records(all))
    ensures IdList(ctl.conversations) == Without(st.list, obsolete.id)
    ensures b.Some? ==> TablesLeft(ctl, all, b.value, Without(st.list, obsolete.id), st.stale)
  {
    RemovableObsolete(ctl, all, b, st, obsolete);
    RemoveReady(ctl, obsolete, all, b, Without(st.list, obsolete.id), st.stale);
  }

  lemma EntrySet(all: Table, t: Table, v: string, c: ConversationModel)
    requires AllStored(all, t) && Stored(all, c)
    ensures AllStored(all, t[v := c]) && Ids(t[v := c]) == Ids(t)[v := c.id]
  {}

  lemma KnownEntries(all: Table, st: State, t: Table, v: string)
    requires AllStored(all, t) && st.contacts == Records(all) && (forall k :: k in all ==> all[k].id == k) && v in t
    ensures st.contacts.Keys == KindsOf(all).Keys
    ensures Stored(all, t[v]) && Ids(t)[v] == t[v].id && st.contacts[t[v].id] == t[v].Attributes()
    ensures KindsOf(all)[t[v].id] == t[v].kind
  {}

  method CheckServiceId(
    ctl: Controller, c: ConversationModel, byServiceId0: Table, merges0: seq<Merge>,
    ghost all: Table, ghost b: Option<Book>, ghost st: State) returns (byServiceId: Table, merges: seq<Merge>)
    requires Agrees(ctl, all, b, st) && ConflictRules.Known(st, KindsOf(all)) && Stored(all, c)
    requires AllStored(all, byServiceId0) && st.byServiceId == Ids(byServiceId0) && st.merges == merges0
    modifies ctl
    ensures Agrees(ctl, all, b, ConflictRules.CheckServiceId(st, KindsOf(all), c.id)) && AllStored(all, byServiceId)
    ensures ConflictRules.CheckServiceId(st, KindsOf(all), c.id)
            == st.(list := IdList(ctl.conversations), merges := merges, byServiceId := Ids(byServiceId))
  {
    byServiceId, merges := byServiceId0, merges0;
    if c.serviceId.None? { return; }
    var v := c.serviceId.value;
    EntrySet(all, byServiceId, v, c);
    if v !in byServiceId {
      byServiceId := byServiceId[v := c];
    } else {
      var existing := byServiceId[v];
      KnownEntries(all, st, byServiceId, v);
      // A phone number decides in favour of the conversation visited now.
      if c.e164.Some? {
        merges := CombineConversations(ctl, c, existing, merges, all, b, st);
        byServiceId := byServiceId[v := c];
      } else {
        merges := CombineConversations(ctl, existing, c, merges, all, b, st);
      }
    }
  }

  method CheckPni(
    ctl: Controller, c: ConversationModel, byServiceId0: Table, merges0: seq<Merge>,
    ghost all: Table, ghost b: Option<Book>, ghost st: State, ghost seen: set<Id>)
    returns (byServiceId: Table, merges: seq<Merge>)
    requires Agrees(ctl, all, b, st) && ConflictRules.Known(st, KindsOf(all)) && Stored(all, c)
    requires AllStored(all, byServiceId0) && st.byServiceId == Ids(byServiceId0) && st.merges == merges0
    requires ConflictProofs.HalfKept(st, seen, c.id) && c.id !in seen
    modifies ctl
    ensures Agrees(ctl, all, b, ConflictRules.CheckPni(st, KindsOf(all), c.id)) && AllStored(all, byServiceId)
    ensures ConflictRules.CheckPni(st, KindsOf(all), c.id)
            == st.(list := IdList(ctl.conversations), merges := merges, byServiceId := Ids(byServiceId))
  {
    byServiceId, merges := byServiceId0, merges0;
    if c.pni.None? { return; }
    var v := c.pni.value;
    EntrySet(all, byServiceId, v, c);
    if v !in byServiceId {
      byServiceId := byServiceId[v := c];
    } else {
      var existing := byServiceId[v];
      KnownEntries(all, st, byServiceId, v);
      // The conversation visited now wins: it has a PNI.
      if existing == c {
        MeetsItself(all, st, seen, c, v);
        assert c.pni == c.serviceId;
      } else {
        merges := CombineConversations(ctl, c, existing, merges, all, b, st);
        byServiceId := byServiceId[v := c];
      }
    }
  }

  /** What the source asserts where a conversation meets itself under its PNI. */
  lemma MeetsItself(all: Table, st: State, seen: set<Id>, c: ConversationModel, v: string)
    requires ConflictProofs.HalfKept(st, seen, c.id) && c.id !in seen && Stored(all, c) && st.contacts == Records(all)
    requires c.pni == Some(v) && v in st.byServiceId && st.byServiceId[v] == c.id
    ensures c.pni == c.serviceId
  {
    assert st.contacts[c.id] == c.Attributes();
    ConflictProofs.MeetsItself(st, seen, c.id);
  }

  method CheckGroup(
    ctl: Controller, c: ConversationModel, byGroupV2Id0: Table, merges0: seq<Merge>,
    ghost all: Table, ghost b: Option<Book>, ghost st: State) returns (byGroupV2Id: Table, merges: seq<Merge>)
    requires Agrees(ctl, all, b, st) && ConflictRules.Known(st, KindsOf(all)) && Stored(all, c)
    requires AllStored(all, byGroupV2Id0) && st.byGroupV2Id == Ids(byGroupV2Id0) && st.merges == merges0
    modifies ctl
    ensures Agrees(ctl, all, b, ConflictRules.CheckGroup(st, KindsOf(all), c.id)) && AllStored(all, byGroupV2Id)
    ensures ConflictRules.CheckGroup(st, KindsOf(all), c.id)
            == st.(list := IdList(ctl.conversations), merges := merges, byGroupV2Id := Ids(byGroupV2Id))
  {
    byGroupV2Id, merges := byGroupV2Id0, merges0;
    var groupV2Id := ConflictRules.GroupV2IdOf(c.kind, c.Attributes());
    if groupV2Id.None? { return; }
    var g := groupV2Id.value;
    EntrySet(all, byGroupV2Id, g, c);
    if g !in byGroupV2Id {
      byGroupV2Id := byGroupV2Id[g := c];
    } else {
      var existing := byGroupV2Id[g];
      KnownEntries(all, st, byGroupV2Id, g);
      // The one visited first stays, unless only the other is of version two.
      if c.kind.GroupV2? && !existing.kind.GroupV2? {
        merges := CombineConversations(ctl, c, existing, merges, all, b, st);
        byGroupV2Id := byGroupV2Id[g := c];
      } else {
        merges := CombineConversations(ctl, existing, c, merges, all, b, st);
      }
    }
  }

  /** The phone number goes from the attributes alone; the lookup tables of the controller are not told. */
  method DropE164(existing: ConversationModel, ghost all: Table)
    requires Stored(all, existing) && forall k :: k in all ==> all[k].id == k
    modifies existing`e164
    ensures
      var was := old(Records(all))[existing.id];
      Records(all) == old(Records(all))[existing.id := was.(e164 := None)]
  {
    existing.e164 := None;
  }

  lemma DroppedAgrees(ctl: Controller, all: Table, b: Option<Book>, st: State, c: Id)
    requires Fits(ctl, all) && st.list == IdList(ctl.conversations)
    requires b.Some? ==>
      AllFiled(b.value) && TablesLeft(ctl, all, b.value, st.list, st.stale) && NumbersKept(b.value.contacts, st)
    requires ConflictRules.Known(st, KindsOf(all)) && c in KindsOf(all) && ConflictRules.Dropping(st, c)
    requires ConflictRules.CheckE164(st, KindsOf(all), c).contacts == Records(all)
    ensures Agrees(ctl, all, b, ConflictRules.CheckE164(st, KindsOf(all), c))
  {
    if b.None? { return; }
    PhoneKeepsNumbers(st, KindsOf(all), b.value.contacts, c);
    var d := st.byE164[st.contacts[c].e164.value];
    if d in st.list { DropLeavesPhones(b.value.byE164, st.list, st.stale, d); }
  }

  /** `dropped` tells the loop to go on with the next conversation. */
  method CheckE164(
    ctl: Controller, c: ConversationModel, byE1640: Table, merges0: seq<Merge>,
    ghost all: Table, ghost b: Option<Book>, ghost st: State) returns (byE164: Table, merges: seq<Merge>, dropped: bool)
    requires Agrees(ctl, all, b, st) && ConflictRules.Known(st, KindsOf(all)) && Stored(all, c)
    requires AllStored(all, byE1640) && st.byE164 == Ids(byE1640) && st.merges == merges0
    modifies ctl, byE1640.Values`e164
    ensures Agrees(ctl, all, b, ConflictRules.CheckE164(st, KindsOf(all), c.id)) && AllStored(all, byE164)
    ensures dropped == ConflictRules.Dropping(st, c.id)
    ensures ConflictRules.CheckE164(st, KindsOf(all), c.id)
            == st.(list := IdList(ctl.conversations), merges := merges, contacts := Records(all), byE164 := Ids(byE164),
                   stale := ConflictRules.CheckE164(st, KindsOf(all), c.id).stale)
  {
    byE164, merges, dropped := byE1640, merges0, false;
    if c.e164.None? { return; }
    var e := c.e164.value;
    EntrySet(all, byE164, e, c);
    if e !in byE164 {
      byE164 := byE164[e := c];
    } else {
      byE164, merges, dropped := MeetByPhone(ctl, c, byE164, merges, all, b, st);
    }
  }

  method DropByPhone(
    ctl: Controller, c: ConversationModel, existing: ConversationModel,
    ghost all: Table, ghost b: Option<Book>, ghost st: State)
    requires Agrees(ctl, all, b, st) && ConflictRules.Known(st, KindsOf(all)) && Stored(all, c) && Stored(all, existing)
    requires ConflictRules.Dropping(st, c.id) && st.byE164[st.contacts[c.id].e164.value] == existing.id
    modifies existing`e164
    ensures Agrees(ctl, all, b, ConflictRules.CheckE164(st, KindsOf(all), c.id))
    ensures ConflictRules.CheckE164(st, KindsOf(all), c.id).contacts == Records(all)
  {
    DropE164(existing, all);
    DroppedAgrees(ctl, all, b, st, c.id);
  }

  /** The branch where the phone number is an entry already. */
  method MeetByPhone(
    ctl: Controller, c: ConversationModel, byE1640: Table, merges0: seq<Merge>,
    ghost all: Table, ghost b: Option<Book>, ghost st: State) returns (byE164: Table, merges: seq<Merge>, dropped: bool)
    requires Agrees(ctl, all, b, st) && ConflictRules.Known(st, KindsOf(all)) && Stored(all, c)
    requires AllStored(all, byE1640) && st.byE164 == Ids(byE1640) && st.merges == merges0
    requires c.e164.Some? && c.e164.value in byE1640
    modifies ctl, byE1640.Values`e164
    ensures Agrees(ctl, all, b, ConflictRules.CheckE164(st, KindsOf(all), c.id)) && AllStored(all, byE164)
    ensures dropped == ConflictRules.Dropping(st, c.id)
    ensures ConflictRules.CheckE164(st, KindsOf(all), c.id)
            == st.(list := IdList(ctl.conversations), merges := merges, contacts := Records(all), byE164 := Ids(byE164),
                   stale := ConflictRules.CheckE164(st, KindsOf(all), c.id).stale)
  {
    byE164, merges, dropped := byE1640, merges0, false;
    var e := c.e164.value;
    var existing := byE164[e];
    EntrySet(all, byE164, e, c);
    KnownEntries(all, st, byE164, e);
    if c.serviceId.Some? && existing.serviceId.Some? && c.serviceId != existing.serviceId {
      DropByPhone(ctl, c, existing, all, b, st);
      byE164 := byE164[e := c];
      dropped := true;
    } else if c.serviceId.Some? {
      merges := CombineConversations(ctl, c, existing, merges, all, b, st);
      byE164 := byE164[e := c];
    } else {
      merges := CombineConversations(ctl, existing, c, merges, all, b, st);
    }
  }

  /** The local tables of the check. */
  datatype Tables = Tables(byServiceId: Table, byE164: Table, byGroupV2Id: Table)
  {
    ghost predicate Mirrors(all: Table, st: State) {
      && AllStored(all, byServiceId) && AllStored(all, byE164) && AllStored(all, byGroupV2Id)
      && st.byServiceId == Ids(byServiceId) && st.byE164 == Ids(byE164) && st.byGroupV2Id == Ids(byGroupV2Id)
    }
  }

  /** One round of the loop. */
  method Visit(
    ctl: Controller, c: ConversationModel, t0: Tables, merges0: seq<Merge>,
    ghost all: Table, ghost b: Option<Book>, ghost st: State, ghost seen: set<Id>)
    returns (t: Tables, merges: seq<Merge>)
    requires Agrees(ctl, all, b, st) && ConflictProofs.Tracked(st, KindsOf(all), seen) && Stored(all, c)
    requires c.id !in seen
    requires t0.Mirrors(all, st) && st.merges == merges0
    modifies ctl, all.Values`e164
    ensures
      var r := ConflictRules.Visit(st, KindsOf(all), c.id);
      Agrees(ctl, all, b, r) && t.Mirrors(all, r) && r.merges == merges
  {
    ghost var kinds := KindsOf(all);
    var byServiceId, ms := CheckServiceId(ctl, c, t0.byServiceId, merges0, all, b, st);
    ghost var st1 := ConflictRules.CheckServiceId(st, kinds, c.id);
    ConflictProofs.ServiceIdPhase(st, kinds, seen, c.id);
    byServiceId, ms := CheckPni(ctl, c, byServiceId, ms, all, b, st1, seen);
    ghost var st2 := ConflictRules.CheckPni(st1, kinds, c.id);
    var byE164, dropped;
    byE164, ms, dropped := CheckE164(ctl, c, t0.byE164, ms, all, b, st2);
    t, merges := Tables(byServiceId, byE164, t0.byGroupV2Id), ms;
    if dropped { return; }
    ghost var st3 := ConflictRules.CheckE164(st2, kinds, c.id);
    var byGroupV2Id;
    byGroupV2Id, merges := CheckGroup(ctl, c, t0.byGroupV2Id, merges, all, b, st3);
    t := t.(byGroupV2Id := byGroupV2Id);
  }

  lemma InIdList(s: seq<ConversationModel>, c: ConversationModel)
    requires c in s
    ensures c.id in IdList(s)
  {
    var i :| 0 <= i < |s| && s[i] == c;
    assert IdList(s)[i] == c.id;
  }

  lemma BackedAtStart(conversations: seq<ConversationModel>, byId: Table, t: Table, slot: Slot)
    requires Listed(conversations, byId) && Backed(byId, t, slot)
    ensures AllStored(byId, t) && FiledUnder(Ids(t), Records(byId), slot)
    ensures Ids(t) == Left(Ids(t), IdList(conversations)) == PhonesLeft(Ids(t), IdList(conversations), {})
  {
    forall k | k in t
      ensures t[k].id in IdList(conversations)
    {
      StoredInList(conversations, byId, t[k]);
      InIdList(conversations, t[k]);
    }
  }

  lemma WiredAtStart(ctl: Controller)
    requires ctl.Wired()
    ensures
      var b, list := ctl.Snapshot(), IdList(ctl.conversations);
      && AllFiled(b) && TablesLeft(ctl, ctl.byId, b, list, {})
      && NumbersKept(b.contacts, ConflictRules.Initial(list, b.contacts))
  {
    BackedAtStart(ctl.conversations, ctl.byId, ctl.byServiceId, ServiceIdSlot);
    BackedAtStart(ctl.conversations, ctl.byId, ctl.byE164, E164Slot);
    BackedAtStart(ctl.conversations, ctl.byId, ctl.byPni, PniSlot);
    BackedAtStart(ctl.conversations, ctl.byId, ctl.byGroupId, GroupIdSlot);
    ListedIds(ctl.conversations, ctl.byId);
  }

  /** A table is sound exactly if its entries are listed and filed under what they have now. */
  lemma BackedIff(ctl: Controller, all: Table, t: Table, slot: Slot)
    requires Fits(ctl, all) && AllStored(all, t)
    ensures
      Backed(ctl.byId, t, slot)
      <==> FiledUnder(Ids(t), Records(all), slot) && forall k :: k in Ids(t) ==> Ids(t)[k] in IdList(ctl.conversations)
  {
    forall k | k in t
      ensures Stored(ctl.byId, t[k]) <==> Ids(t)[k] in IdList(ctl.conversations)
      ensures Ids(t)[k] in Records(all) && Records(all)[Ids(t)[k]] == t[k].Attributes()
    {
      ListedIffId(ctl, all, t[k]);
    }
  }

  lemma LeftIsFiled(t: map<string, Id>, contacts: map<Id, Contact>, slot: Slot, st: State)
    requires FiledUnder(t, contacts, slot) && NumbersKept(contacts, st) && slot != E164Slot
    ensures FiledUnder(Left(t, st.list), st.contacts, slot)
  {}

  /**
   The store after a check that ended in `r`, if its tables were filed as in `b`; the entries are sound
   exactly if no entry for a number lost it while listed.
   */
  ghost predicate EndsAs(ctl: Controller, b: Book, r: State)
    reads ctl, ctl.byId.Values
  {
    ctl.Snapshot() == After(b, r) && (ctl.Wired() <==> !SomeStale(b.byE164, r.stale))
  }

  lemma WiredAtEnd(ctl: Controller, all: Table, b: Book, st: State)
    requires Agrees(ctl, all, Some(b), st)
    ensures ctl.Wired() <==> !SomeStale(b.byE164, st.stale)
  {
    PhonesSoundIff(b.byE164, b.contacts, st);
    BackedIff(ctl, all, ctl.byE164, E164Slot);
    BackedIff(ctl, all, ctl.byServiceId, ServiceIdSlot);
    BackedIff(ctl, all, ctl.byPni, PniSlot);
    BackedIff(ctl, all, ctl.byGroupId, GroupIdSlot);
    LeftIsFiled(b.byServiceId, b.contacts, ServiceIdSlot, st);
    LeftIsFiled(b.byPni, b.contacts, PniSlot, st);
    LeftIsFiled(b.byGroupId, b.contacts, GroupIdSlot, st);
  }

  lemma RecordsLeft(ctl: Controller, all: Table, st: State)
    requires Fits(ctl, all) && st.list == IdList(ctl.conversations) && st.contacts == Records(all)
    ensures Records(ctl.byId) == map x | x in st.list && x in st.contacts :: st.contacts[x]
  {
    forall x | x in all
      ensures x in ctl.byId <==> x in st.list
    {
      ListedIffId(ctl, all, all[x]);
    }
    ListedIds(ctl.conversations, ctl.byId);
  }

  lemma AtTheEnd(ctl: Controller, all: Table, b: Book, st: State)
    requires Agrees(ctl, all, Some(b), st)
    ensures EndsAs(ctl, b, st)
  {
    WiredAtEnd(ctl, all, b, st);
    RecordsLeft(ctl, all, st);
  }

  // ---------------------------------------------------------------- the loop

  lemma WithNobodyGone(st: State)
    ensures WithGone(st, {}) == st
  {}

  lemma AgreesAtStart(ctl: Controller, b: Option<Book>)
    requires Fits(ctl, ctl.byId) && b == if ctl.Wired() then Some(ctl.Snapshot()) else None
    ensures Agrees(ctl, ctl.byId, b, WithGone(ConflictRules.Initial(IdList(ctl.conversations), Records(ctl.byId)), {}))
  {
    if ctl.Wired() { WiredAtStart(ctl); }
    WithNobodyGone(ConflictRules.Initial(IdList(ctl.conversations), Records(ctl.byId)));
  }

  /** The same state, but for who had lost its number before. */
  function WithGone(st: State, gone: set<Id>): State { st.(stale := st.stale + gone) }

  lemma CombineWithGone(st: State, kinds: ConflictRules.Kinds, current: Id, obsolete: Id, gone: set<Id>)
    requires current in kinds && obsolete in kinds
    ensures ConflictRules.Combine(WithGone(st, gone), kinds, current, obsolete)
            == WithGone(ConflictRules.Combine(st, kinds, current, obsolete), gone)
  {}

  lemma ServiceIdWithGone(st: State, kinds: ConflictRules.Kinds, c: Id, gone: set<Id>)
    requires ConflictRules.Known(st, kinds) && c in kinds
    ensures ConflictRules.CheckServiceId(WithGone(st, gone), kinds, c)
            == WithGone(ConflictRules.CheckServiceId(st, kinds, c), gone)
  {
    var v := st.contacts[c].serviceId;
    if v.Some? && v.value in st.byServiceId {
      CombineWithGone(st, kinds, c, st.byServiceId[v.value], gone);
      CombineWithGone(st, kinds, st.byServiceId[v.value], c, gone);
    }
  }

  lemma PniWithGone(st: State, kinds: ConflictRules.Kinds, c: Id, gone: set<Id>)
    requires ConflictRules.Known(st, kinds) && c in kinds
    ensures ConflictRules.CheckPni(WithGone(st, gone), kinds, c) == WithGone(ConflictRules.CheckPni(st, kinds, c), gone)
  {
    var v := st.contacts[c].pni;
    if v.Some? && v.value in st.byServiceId { CombineWithGone(st, kinds, c, st.byServiceId[v.value], gone); }
  }

  lemma PhoneWithGone(st: State, kinds: ConflictRules.Kinds, c: Id, gone: set<Id>)
    requires ConflictRules.Known(st, kinds) && c in kinds
    ensures ConflictRules.CheckE164(WithGone(st, gone), kinds, c)
            == WithGone(ConflictRules.CheckE164(st, kinds, c), gone)
  {
    if ConflictRules.Dropping(st, c) {
      var d := st.byE164[st.contacts[c].e164.value];
      assert st.stale + gone + {d} == st.stale + {d} + gone;
    }
  }

  lemma GroupWithGone(st: State, kinds: ConflictRules.Kinds, c: Id, gone: set<Id>)
    requires ConflictRules.Known(st, kinds) && c in kinds
    ensures ConflictRules.CheckGroup(WithGone(st, gone), kinds, c)
            == WithGone(ConflictRules.CheckGroup(st, kinds, c), gone)
  {
    var g := ConflictRules.GroupV2IdOf(kinds[c], st.contacts[c]);
    if g.Some? && g.value in st.byGroupV2Id {
      CombineWithGone(st, kinds, c, st.byGroupV2Id[g.value], gone);
      CombineWithGone(st, kinds, st.byGroupV2Id[g.value], c, gone);
    }
  }

  /** Who lost its number before is not looked at. */
  lemma VisitWithGone(st: State, kinds: ConflictRules.Kinds, c: Id, gone: set<Id>)
    requires ConflictRules.Known(st, kinds) && c in kinds
    ensures ConflictRules.Visit(WithGone(st, gone), kinds, c) == WithGone(ConflictRules.Visit(st, kinds, c), gone)
  {
    var r1 := ConflictRules.CheckServiceId(st, kinds, c);
    var r2 := ConflictRules.CheckPni(r1, kinds, c);
    ServiceIdWithGone(st, kinds, c, gone);
    PniWithGone(r1, kinds, c, gone);
    PhoneWithGone(r2, kinds, c, gone);
    GroupWithGone(ConflictRules.CheckE164(r2, kinds, c), kinds, c, gone);
  }

  lemma TrackedWithGone(st: State, kinds: ConflictRules.Kinds, seen: set<Id>, gone: set<Id>)
    requires ConflictProofs.Tracked(st, kinds, seen)
    ensures ConflictProofs.Tracked(WithGone(st, gone), kinds, seen)
  {
    assert forall x, v :: ConflictProofs.HoldsId(WithGone(st, gone), x, v) <==> ConflictProofs.HoldsId(st, x, v);
    assert forall x, e :: ConflictProofs.HoldsE164(WithGone(st, gone), x, e) <==> ConflictProofs.HoldsE164(st, x, e);
    assert forall x :: ConflictProofs.GroupOf(WithGone(st, gone), kinds, x) == ConflictProofs.GroupOf(st, kinds, x);
  }

  /** What the loop needs to know when it goes on to position `i`. */
  lemma NextRound(list: seq<Id>, kinds: ConflictRules.Kinds, contacts: map<Id, Contact>, i: nat, gone: set<Id>)
    requires ConflictResult.Checkable(list, kinds, contacts) && i < |list|
    ensures (forall c <- list[i..] :: c in kinds) && forall c <- list[i + 1..] :: c in kinds
    ensures
      var start, done := ConflictRules.Initial(list, contacts), list[i + 1..];
      var st := WithGone(ConflictRules.Visits(start, kinds, done), gone);
      && ConflictProofs.Tracked(st, kinds, Elements(done)) && list[i] !in Elements(done)
      && i < |st.list| && st.list[i] == list[i]
      && WithGone(ConflictRules.Visits(start, kinds, list[i..]), gone) == ConflictRules.Visit(st, kinds, list[i])
  {
    var done := list[i + 1..];
    var st := ConflictRules.Visits(ConflictRules.Initial(list, contacts), kinds, done);
    SplitAt(list, i);
    ConflictResult.NextInPlace(list, kinds, contacts, list[..i], list[i], done);
    ConflictTwins.VisitingNext(list, kinds, contacts, list[..i], list[i], done);
    TrackedWithGone(st, kinds, Elements(done), gone);
    VisitWithGone(st, kinds, list[i], gone);
    assert list[i..][0] == list[i] && list[i..][1..] == done;
  }

  /**
   `#doCheckForConflicts`: the position is counted down over the list as it is by then, and still
   every conversation of the initial list is visited exactly once.
   */
  method DoCheckForConflicts(ctl: Controller) returns (merges: seq<Merge>, ghost visited: seq<Id>)
    requires Fits(ctl, ctl.byId) && ConflictProofs.OnlyDirect(KindsOf(ctl.byId), Records(ctl.byId))
    modifies ctl, ctl.byId.Values`e164
    ensures Listed(ctl.conversations, ctl.byId) && visited == old(IdList(ctl.conversations))
    ensures
      var all := old(ctl.byId);
      var r := ConflictRules.Check(visited, KindsOf(all), old(Records(all)));
      r.list == IdList(ctl.conversations) && r.merges == merges && r.contacts == Records(all)
    ensures
      var b := old(ctl.Snapshot());
      old(ctl.Wired()) ==> EndsAs(ctl, b, ConflictRules.Check(visited, KindsOf(old(ctl.byId)), b.contacts))
  {
    ghost var b := if ctl.Wired() then Some(ctl.Snapshot()) else None;
    AgreesAtStart(ctl, b);
    merges, visited := CheckFrom(ctl, b, {});
    WithNobodyGone(ConflictRules.Check(visited, KindsOf(old(ctl.byId)), old(Records(ctl.byId))));
  }

  /** The loop, with tables filed as in `b`, where the conversations in `gone` still had their numbers. */
  method CheckFrom(
    ctl: Controller, ghost b: Option<Book>, ghost gone: set<Id>) returns (merges: seq<Merge>, ghost visited: seq<Id>)
    requires Fits(ctl, ctl.byId) && ConflictProofs.OnlyDirect(KindsOf(ctl.byId), Records(ctl.byId))
    requires
      Agrees(ctl, ctl.byId, b, WithGone(ConflictRules.Initial(IdList(ctl.conversations), Records(ctl.byId)), gone))
    modifies ctl, ctl.byId.Values`e164
    ensures Listed(ctl.conversations, ctl.byId) && visited == old(IdList(ctl.conversations))
    ensures
      var all := old(ctl.byId);
      var r := ConflictRules.Check(visited, KindsOf(all), old(Records(all)));
      && r.list == IdList(ctl.conversations) && r.merges == merges && r.contacts == Records(all)
      && (b.Some? ==> EndsAs(ctl, b.value, WithGone(r, gone)))
  {
    ghost var all := ctl.byId;
    ghost var kinds, list, contacts := KindsOf(all), IdList(ctl.conversations), Records(all);
    var t := Tables(map[], map[], map[]);
    merges, visited := [], [];
    var i := |ctl.conversations|;
    ghost var start := ConflictRules.Initial(list, contacts);
    ListedIds(ctl.conversations, all);
    while i > 0
      invariant 0 <= i <= |list| && visited == list[i..]
      invariant var st := WithGone(ConflictRules.Visits(start, kinds, visited), gone);
        Agrees(ctl, all, b, st) && t.Mirrors(all, st) && merges == st.merges
    {
      i := i - 1;
      NextRound(list, kinds, contacts, i, gone);
      var c := ctl.conversations[i];
      ghost var st := WithGone(ConflictRules.Visits(start, kinds, visited), gone);
      assert IdList(ctl.conversations)[i] == c.id;
      t, merges := Visit(ctl, c, t, merges, all, b, st, Elements(visited));
      visited := list[i..];
    }
    if b.Some? { AtTheEnd(ctl, all, b.value, WithGone(ConflictRules.Visits(start, kinds, visited), gone)); }
  }
}
