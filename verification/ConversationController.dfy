/**
 The conversation controller as it runs: models whose attributes are updated in place,
 and five lookup tables of references. Its abstract value is a `ContactBook.Book`.
 */
module ConversationController {
  import opened Wrappers
  import opened Lists
  import opened ContactBook
  import opened ContactMerge

  class ConversationModel {
    const id: string
    const kind: Kind
    var serviceId: Option<string>
    var e164: Option<string>
    var pni: Option<string>
    var groupId: Option<string>

    constructor (id: string, kind: Kind, c: Contact)
      ensures this.id == id && this.kind == kind && Attributes() == c
    {
      this.id, this.kind := id, kind;
      serviceId, e164, pni, groupId := c.serviceId, c.e164, c.pni, c.groupId;
    }

    function Attributes(): Contact
      reads this
    {
      Contact(serviceId, e164, pni, groupId)
    }
  }

  // ---------------------------------------------------------------- tables of models

  type Table = map<string, ConversationModel>

  function Ids(t: Table): map<string, Id> { map k | k in t :: t[k].id }

  ghost function Records(byId: Table): map<Id, Contact>
    reads byId.Values
  {
    map k | k in byId :: byId[k].Attributes()
  }

  /** The index by local id has this very model. */
  predicate Stored(byId: Table, c: ConversationModel) { c.id in byId && byId[c.id] == c }

  /** Entries are stored models that have the indexed value. */
  ghost predicate Backed(byId: Table, t: Table, slot: Slot)
    reads byId.Values
  {
    forall k :: k in t ==> Stored(byId, t[k]) && t[k].Attributes().Get(slot) == Some(k)
  }

  /** The table after `idUpdated`. */
  function Reindexed(t: Table, oldValue: Option<string>, now: Option<string>, c: ConversationModel): Table {
    var t := if oldValue.Some? then t - {oldValue.value} else t;
    if now.Some? then t[now.value := c] else t
  }

  lemma IdsReindexed(t: Table, oldValue: Option<string>, now: Option<string>, c: ConversationModel)
    ensures
      var idx := if oldValue.Some? then Ids(t) - {oldValue.value} else Ids(t);
      Ids(Reindexed(t, oldValue, now, c)) == if now.Some? then idx[now.value := c.id] else idx
  {}

  /** One table of `#addToLookup`. */
  function Added(t: Table, v: Option<string>, c: ConversationModel, better: bool): Table {
    if v.Some? && !(v.value in t && better) then t[v.value := c] else t
  }

  /** The entry under `v` has the attribute that makes it the better contact. */
  predicate Better(t: Table, v: Option<string>, wanted: Slot)
    reads t.Values
  {
    v.Some? && v.value in t && t[v.value].Attributes().Get(wanted).Some?
  }

  lemma AddedBacked(byId: Table, t: Table, c: ConversationModel, slot: Slot, wanted: Slot)
    requires Backed(byId, t, slot) && Stored(byId, c)
    ensures
      var v := c.Attributes().Get(slot);
      var t' := Added(t, v, c, Better(t, v, wanted));
      && Backed(byId, t', slot)
      && Ids(t') == Indexed(Ids(t), v, c.id, Entry(Records(byId), Ids(t), v).Get(wanted).Some?)
  {}

  lemma GroupAddedBacked(byId: Table, t: Table, c: ConversationModel)
    requires Backed(byId, t, GroupIdSlot) && Stored(byId, c)
    ensures
      var t' := Added(t, c.groupId, c, false);
      Backed(byId, t', GroupIdSlot) && Ids(t') == Indexed(Ids(t), c.groupId, c.id, false)
  {}

  lemma AddedBook(byId: Table, b: Book, svc: Table, phone: Table, pni: Table, group: Table, c: ConversationModel)
    requires Backed(byId, svc, ServiceIdSlot) && Backed(byId, phone, E164Slot) && Backed(byId, pni, PniSlot)
    requires Backed(byId, group, GroupIdSlot) && Stored(byId, c)
    requires b == Book(Records(byId), Ids(svc), Ids(phone), Ids(pni), Ids(group))
    ensures
      var svc' := Added(svc, c.serviceId, c, Better(svc, c.serviceId, E164Slot));
      var phone' := Added(phone, c.e164, c, Better(phone, c.e164, ServiceIdSlot));
      var pni' := Added(pni, c.pni, c, Better(pni, c.pni, ServiceIdSlot));
      var group' := Added(group, c.groupId, c, false);
      && Backed(byId, svc', ServiceIdSlot) && Backed(byId, phone', E164Slot) && Backed(byId, pni', PniSlot)
      && Backed(byId, group', GroupIdSlot)
      && Book(Records(byId), Ids(svc'), Ids(phone'), Ids(pni'), Ids(group'))
         == ContactBook.AddConversation(b, c.id, c.Attributes())
  {
    AddedBacked(byId, svc, c, ServiceIdSlot, E164Slot);
    AddedBacked(byId, phone, c, E164Slot, ServiceIdSlot);
    AddedBacked(byId, pni, c, PniSlot, ServiceIdSlot);
    GroupAddedBacked(byId, group, c);
    assert b.contacts[c.id := c.Attributes()] == b.contacts;
  }

  /** The list has no duplicates and `byId` indexes exactly it. */
  ghost predicate Listed(conversations: seq<ConversationModel>, byId: Table) {
    && NoDuplicates(conversations)
    && (forall i :: 0 <= i < |conversations| ==> Stored(byId, conversations[i]))
    && (forall k :: k in byId ==> byId[k] in conversations && byId[k].id == k)
  }

  lemma PushedBacked(conversations: seq<ConversationModel>, byId: Table, c: ConversationModel)
    requires Listed(conversations, byId) && c.id !in byId
    ensures Listed(conversations + [c], byId[c.id := c])
    ensures Records(byId[c.id := c]) == Records(byId)[c.id := c.Attributes()]
    ensures forall t: Table, slot: Slot :: Backed(byId, t, slot) ==> Backed(byId[c.id := c], t, slot)
  {}

  lemma StoredInList(conversations: seq<ConversationModel>, byId: Table, c: ConversationModel)
    requires Listed(conversations, byId)
    ensures Stored(byId, c) <==> c in conversations
  {}

  lemma WithoutListed(conversations: seq<ConversationModel>, byId: Table, c: ConversationModel)
    requires Listed(conversations, byId) && Stored(byId, c)
    ensures Listed(Without(conversations, c), byId - {c.id})
    ensures c !in Without(conversations, c)
  {
    WithoutMember(conversations, c);
    forall d | d in Without(conversations, c)
      ensures Stored(byId - {c.id}, d)
    {
      StoredInList(conversations, byId, d);
    }
  }

  /** One table of `#removeFromLookup`. */
  function Unlisted(t: Table, v: Option<string>, c: ConversationModel): Table {
    if v.Some? && (v.value !in t || t[v.value] == c) then t - {v.value} else t
  }

  lemma IdsUnlisted(t: Table, v: Option<string>, c: ConversationModel)
    requires v.Some? && v.value in t ==> (t[v.value] == c <==> t[v.value].id == c.id)
    ensures Ids(Unlisted(t, v, c)) == Unindexed(Ids(t), v, c.id)
  {}

  function IdOf(c: ConversationModel?): Option<Id> { if c == null then None else Some(c.id) }

  /** A lookup as the merge loop sees it, holding the model itself. */
  datatype ConvoMatch = ConvoMatch(slot: MergeSlot, value: Option<string>, found: ConversationModel?)
  {
    function AsMatch(): Match { Match(slot, value, IdOf(found)) }
  }

  class Controller {
    var conversations: seq<ConversationModel>
    var byE164: Table
    var byServiceId: Table
    var byPni: Table
    var byGroupId: Table
    var byId: Table

    ghost predicate Wired()
      reads this, byId.Values
    {
      && Listed(conversations, byId)
      && Backed(byId, byServiceId, ServiceIdSlot) && Backed(byId, byE164, E164Slot)
      && Backed(byId, byPni, PniSlot) && Backed(byId, byGroupId, GroupIdSlot)
    }

    function TableOf(slot: Slot): Table
      reads this
    {
      match slot
      case ServiceIdSlot => byServiceId
      case E164Slot => byE164
      case PniSlot => byPni
      case GroupIdSlot => byGroupId
    }

    ghost function Snapshot(): (b: Book)
      reads this, byId.Values
      ensures forall s: Slot :: b.Index(s) == Ids(TableOf(s))
    {
      Book(Records(byId), Ids(byServiceId), Ids(byE164), Ids(byPni), Ids(byGroupId))
    }

    constructor ()
      ensures Wired() && conversations == []
      ensures Snapshot() == Book(map[], map[], map[], map[], map[])
    {
      conversations := [];
      byE164, byServiceId, byPni, byGroupId, byId := map[], map[], map[], map[], map[];
    }

    method Get(key: Option<string>) returns (c: ConversationModel?)
      requires Listed(conversations, byId)
      ensures Lookup(Snapshot(), key) == if c == null then None else Some(c.id)
      ensures Wired() && c != null ==> Stored(byId, c)
    {
      if key.None? || key.value == "" { return null; }
      var k := key.value;
      c := if k in byE164 then byE164[k]
           else if "+" + k in byE164 then byE164["+" + k]
           else if k in byServiceId then byServiceId[k]
           else if k in byPni then byPni[k]
           else if k in byGroupId then byGroupId[k]
           else if k in byId then byId[k]
           else null;
    }

    /** One slot of one model was written and its table re-indexed. */
    twostate predicate Written(c: ConversationModel, slot: Slot, value: Option<string>)
      reads this, byId.Values, c
    {
      && old(Wired()) && Stored(byId, c) && conversations == old(conversations) && byId == old(byId)
      && (forall k :: k in byId && byId[k] != c ==> byId[k].Attributes() == old(byId[k].Attributes()))
      && c.Attributes() == old(c.Attributes()).With(slot, value) && old(c.Attributes()).Get(slot) != value
      && TableOf(slot) == Reindexed(old(TableOf(slot)), old(c.Attributes()).Get(slot), value, c)
      && (forall s: Slot :: s != slot ==> TableOf(s) == old(TableOf(s)))
    }

    twostate lemma WrittenRecords(c: ConversationModel, new slot: Slot, new value: Option<string>)
      requires Written(c, slot, value)
      ensures Records(byId) == old(Records(byId))[c.id := c.Attributes()]
    {}

    twostate lemma WrittenSnapshot(c: ConversationModel, new slot: Slot, new value: Option<string>)
      requires Written(c, slot, value)
      ensures Snapshot() == Update(old(Snapshot()), c.id, slot, value)
    {
      var was := old(c.Attributes());
      WrittenRecords(c, slot, value);
      IdsReindexed(old(TableOf(slot)), was.Get(slot), value, c);
      assert old(Snapshot()).contacts[c.id] == was;
      assert forall s: Slot :: s != slot ==> Snapshot().Index(s) == old(Snapshot()).Index(s);
      UpdateByTables(old(Snapshot()), Snapshot(), c.id, slot, value);
    }

    twostate lemma WrittenWired(c: ConversationModel, new slot: Slot, new value: Option<string>)
      requires Written(c, slot, value)
      ensures Wired()
    {
      forall s: Slot
        ensures Backed(byId, TableOf(s), s)
      {
        GetWith(old(c.Attributes()), slot, s, value);
        assert old(Backed(byId, TableOf(s), s));
      }
      assert TableOf(ServiceIdSlot) == byServiceId && TableOf(E164Slot) == byE164;
      assert TableOf(PniSlot) == byPni && TableOf(GroupIdSlot) == byGroupId;
    }

    /** `idUpdated`: the key of the old value goes, whoever has it; the new value maps to this model. */
    method IdUpdated(c: ConversationModel, slot: Slot, oldValue: Option<string>)
      modifies this`byServiceId, this`byE164, this`byPni, this`byGroupId
      ensures TableOf(slot) == Reindexed(old(TableOf(slot)), oldValue, c.Attributes().Get(slot), c)
      ensures forall s: Slot :: s != slot ==> TableOf(s) == old(TableOf(s))
    {
      if oldValue.Some? {
        var v := oldValue.value;
        match slot
        case ServiceIdSlot => byServiceId := byServiceId - {v};
        case E164Slot => byE164 := byE164 - {v};
        case PniSlot => byPni := byPni - {v};
        case GroupIdSlot => byGroupId := byGroupId - {v};
      }
      match slot
      case ServiceIdSlot => if c.serviceId.Some? { byServiceId := byServiceId[c.serviceId.value := c]; }
      case E164Slot => if c.e164.Some? { byE164 := byE164[c.e164.value := c]; }
      case PniSlot => if c.pni.Some? { byPni := byPni[c.pni.value := c]; }
      case GroupIdSlot => if c.groupId.Some? { byGroupId := byGroupId[c.groupId.value := c]; }
    }

    /** Writing one attribute and re-indexing the model, as `updateServiceId` and `idUpdated` do. */
    method UpdateServiceId(c: ConversationModel, value: Option<string>)
      requires Wired() && Stored(byId, c)
      modifies this`byServiceId, this`byE164, this`byPni, this`byGroupId, c`serviceId
      ensures Wired() && Snapshot() == Update(old(Snapshot()), c.id, ServiceIdSlot, value)
    {
      var oldValue := c.serviceId;
      if oldValue == value { return; }
      c.serviceId := value;
      IdUpdated(c, ServiceIdSlot, oldValue);
      assert Written(c, ServiceIdSlot, value);
      WrittenWired(c, ServiceIdSlot, value);
      WrittenSnapshot(c, ServiceIdSlot, value);
    }

    method UpdateE164(c: ConversationModel, value: Option<string>)
      requires Wired() && Stored(byId, c)
      modifies this`byServiceId, this`byE164, this`byPni, this`byGroupId, c`e164
      ensures Wired() && Snapshot() == Update(old(Snapshot()), c.id, E164Slot, value)
    {
      var oldValue := c.e164;
      if oldValue == value { return; }
      c.e164 := value;
      IdUpdated(c, E164Slot, oldValue);
      assert Written(c, E164Slot, value);
      WrittenWired(c, E164Slot, value);
      WrittenSnapshot(c, E164Slot, value);
    }

    method UpdatePni(c: ConversationModel, value: Option<string>)
      requires Wired() && Stored(byId, c)
      modifies this`byServiceId, this`byE164, this`byPni, this`byGroupId, c`pni
      ensures Wired() && Snapshot() == Update(old(Snapshot()), c.id, PniSlot, value)
    {
      var oldValue := c.pni;
      if oldValue == value { return; }
      c.pni := value;
      IdUpdated(c, PniSlot, oldValue);
      assert Written(c, PniSlot, value);
      WrittenWired(c, PniSlot, value);
      WrittenSnapshot(c, PniSlot, value);
    }

    method ApplyChange(c: ConversationModel, suggested: Change)
      requires Wired() && Stored(byId, c)
      modifies this`byServiceId, this`byE164, this`byPni, this`byGroupId, c
      ensures Wired() && Snapshot() == ContactMerge.ApplyChange(old(Snapshot()), c.id, suggested)
    {
      var change := suggested;
      if change.e164.Put? && !change.pni.Truthy() {
        change := change.(pni := Put(None));
      }
      if change.pni.Truthy() && !change.serviceId.Truthy() && (c.serviceId.None? || c.serviceId == c.pni) {
        change := change.(serviceId := change.pni);
      }
      if !change.serviceId.Truthy() && change.pni.Put? && !change.pni.Truthy() && c.serviceId == c.pni {
        change := change.(serviceId := Put(None));
      }
      assert change == Extended(old(c.Attributes()), suggested);
      Write(c, change);
    }

    method Write(c: ConversationModel, change: Change)
      requires Wired() && Stored(byId, c)
      modifies this`byServiceId, this`byE164, this`byPni, this`byGroupId, c
      ensures Wired() && Snapshot() == WriteAll(old(Snapshot()), c.id, change)
    {
      if change.serviceId.Put? { UpdateServiceId(c, change.serviceId.value); }
      if change.e164.Put? { UpdateE164(c, change.e164.value); }
      if change.pni.Put? { UpdatePni(c, change.pni.value); }
    }

    /** The model joins the list and the index by local id. */
    method Push(c: ConversationModel)
      requires Wired() && c.id !in byId
      modifies this`conversations, this`byId
      ensures Wired() && conversations == old(conversations) + [c] && byId == old(byId)[c.id := c]
      ensures Snapshot() == old(Snapshot()).(contacts := old(Snapshot()).contacts[c.id := c.Attributes()])
    {
      PushedBacked(conversations, byId, c);
      conversations := conversations + [c];
      byId := byId[c.id := c];
    }

    /** One table of `#addToLookup`: an existing entry stays if it has the attribute of the better contact. */
    method AddToTable(t: Table, v: Option<string>, c: ConversationModel, wanted: Slot) returns (r: Table)
      ensures r == Added(t, v, c, Better(t, v, wanted))
    {
      r := t;
      if v.None? { return; }
      var existing := if v.value in t then t[v.value] else null;
      if existing == null || existing.Attributes().Get(wanted).None? { r := r[v.value := c]; }
    }

    method AddToTables(c: ConversationModel)
      modifies this`byE164, this`byServiceId, this`byPni, this`byGroupId
      ensures byServiceId == Added(old(byServiceId), c.serviceId, c, Better(old(byServiceId), c.serviceId, E164Slot))
      ensures byE164 == Added(old(byE164), c.e164, c, Better(old(byE164), c.e164, ServiceIdSlot))
      ensures byPni == Added(old(byPni), c.pni, c, Better(old(byPni), c.pni, ServiceIdSlot))
      ensures byGroupId == Added(old(byGroupId), c.groupId, c, false)
    {
      byE164 := AddToTable(byE164, c.e164, c, ServiceIdSlot);
      byServiceId := AddToTable(byServiceId, c.serviceId, c, E164Slot);
      byPni := AddToTable(byPni, c.pni, c, ServiceIdSlot);
      if c.groupId.Some? { byGroupId := byGroupId[c.groupId.value := c]; }
    }

    /** `#addToLookup` without the index by local id; a group takes the entry in any case. */
    method AddToLookup(c: ConversationModel)
      requires Wired() && Stored(byId, c)
      modifies this`byE164, this`byServiceId, this`byPni, this`byGroupId
      ensures Wired() && Snapshot() == ContactBook.AddConversation(old(Snapshot()), c.id, c.Attributes())
    {
      ghost var b, svc, phone, pni, group := Snapshot(), byServiceId, byE164, byPni, byGroupId;
      AddToTables(c);
      AddedBook(byId, b, svc, phone, pni, group, c);
    }

    /** `#addConversation`. */
    method AddConversation(c: ConversationModel)
      requires Wired() && c.id !in byId
      modifies this
      ensures Wired() && conversations == old(conversations) + [c] && byId == old(byId)[c.id := c]
      ensures Snapshot() == ContactBook.AddConversation(old(Snapshot()), c.id, c.Attributes())
    {
      PushedThenAdded(Snapshot(), c.id, c.Attributes());
      Push(c);
      AddToLookup(c);
    }

    /** One table of `#removeFromLookup`: the entry of another model stays. */
    method RemoveFromTable(t: Table, v: Option<string>, c: ConversationModel) returns (r: Table)
      ensures r == Unlisted(t, v, c)
    {
      r := t;
      if v.None? { return; }
      var existing := if v.value in t then t[v.value] else null;
      if existing == null || existing == c { r := r - {v.value}; }
    }

    /** `#removeFromLookup`. */
    method RemoveFromLookup(c: ConversationModel)
      modifies this`byId, this`byE164, this`byServiceId, this`byPni, this`byGroupId
      ensures byId == old(byId) - {c.id}
      ensures byServiceId == Unlisted(old(byServiceId), c.serviceId, c) && byE164 == Unlisted(old(byE164), c.e164, c)
      ensures byPni == Unlisted(old(byPni), c.pni, c) && byGroupId == Unlisted(old(byGroupId), c.groupId, c)
    {
      byE164 := RemoveFromTable(byE164, c.e164, c);
      byServiceId := RemoveFromTable(byServiceId, c.serviceId, c);
      byPni := RemoveFromTable(byPni, c.pni, c);
      byId := byId - {c.id};
      byGroupId := RemoveFromTable(byGroupId, c.groupId, c);
    }

    /** `#removeConversation`. */
    method RemoveConversation(c: ConversationModel)
      requires Listed(conversations, byId) && Stored(byId, c)
      modifies this
      ensures Listed(conversations, byId) && conversations == Without(old(conversations), c)
      ensures byId == old(byId) - {c.id}
      ensures byServiceId == Unlisted(old(byServiceId), c.serviceId, c) && byE164 == Unlisted(old(byE164), c.e164, c)
      ensures byPni == Unlisted(old(byPni), c.pni, c) && byGroupId == Unlisted(old(byGroupId), c.groupId, c)
    {
      WithoutListed(conversations, byId, c);
      conversations := Without(conversations, c);
      RemoveFromLookup(c);
    }

    twostate lemma RemovedBySlot(c: ConversationModel)
      requires byServiceId == Unlisted(old(byServiceId), c.serviceId, c) && byE164 == Unlisted(old(byE164), c.e164, c)
      requires byPni == Unlisted(old(byPni), c.pni, c) && byGroupId == Unlisted(old(byGroupId), c.groupId, c)
      ensures forall s: Slot :: TableOf(s) == Unlisted(old(TableOf(s)), c.Attributes().Get(s), c)
    {}

    twostate lemma RemovedWired(c: ConversationModel)
      requires old(Wired()) && old(Stored(byId, c)) && byId == old(byId) - {c.id} && Listed(conversations, byId)
      requires forall k :: k in old(byId) ==> unchanged(old(byId)[k])
      requires forall s: Slot :: TableOf(s) == Unlisted(old(TableOf(s)), c.Attributes().Get(s), c)
      ensures Wired()
    {
      forall s: Slot
        ensures Backed(byId, TableOf(s), s)
      {
        assert old(Backed(byId, TableOf(s), s));
      }
      assert TableOf(ServiceIdSlot) == byServiceId && TableOf(E164Slot) == byE164;
      assert TableOf(PniSlot) == byPni && TableOf(GroupIdSlot) == byGroupId;
    }

    twostate lemma RemovedSnapshot(c: ConversationModel)
      requires old(Wired()) && old(Stored(byId, c)) && byId == old(byId) - {c.id}
      requires forall k :: k in old(byId) ==> unchanged(old(byId)[k])
      requires forall s: Slot :: TableOf(s) == Unlisted(old(TableOf(s)), c.Attributes().Get(s), c)
      ensures Snapshot() == ContactBook.RemoveConversation(old(Snapshot()), c.id)
    {
      forall s: Slot
        ensures Ids(TableOf(s)) == Unindexed(Ids(old(TableOf(s))), c.Attributes().Get(s), c.id)
      {
        assert old(Backed(byId, TableOf(s), s));
        IdsUnlisted(old(TableOf(s)), c.Attributes().Get(s), c);
      }
      assert TableOf(ServiceIdSlot) == byServiceId && TableOf(E164Slot) == byE164;
      assert TableOf(PniSlot) == byPni && TableOf(GroupIdSlot) == byGroupId;
      assert Records(byId) == old(Records(byId)) - {c.id};
    }

    method DangerouslyRemoveById(id: string)
      requires Wired()
      modifies this
      ensures Wired()
      ensures
        var found := Lookup(old(Snapshot()), Some(id));
        Snapshot()
        == if found.None? then old(Snapshot()) else ContactBook.RemoveConversation(old(Snapshot()), found.value)
    {
      var c := Get(Some(id));
      if c == null { return; }
      RemoveConversation(c);
      RemovedBySlot(c);
      RemovedWired(c);
      RemovedSnapshot(c);
    }

    /** Models are never replaced, and those that join are new. */
    twostate predicate Grown()
      reads this
    {
      && (forall k :: k in old(byId) ==> k in byId && byId[k] == old(byId)[k])
      && (forall k :: k in byId && k !in old(byId) ==> fresh(byId[k]))
    }

    /** `getOrCreate` of a private conversation. */
    method GetOrCreate(identifier: string, e164: Edit, pni: Edit, freshId: string) returns (c: ConversationModel)
      requires Wired() && freshId !in byId
      modifies this
      ensures Wired() && Grown() && Stored(byId, c)
      ensures (Snapshot(), c.id) == ContactBook.GetOrCreate(old(Snapshot()), identifier, e164, pni, freshId)
    {
      var existing := Get(Some(identifier));
      if existing != null { return existing; }
      c := new ConversationModel(freshId, Direct, NewContact(identifier, e164, pni));
      AddConversation(c);
    }

    /** A target, if there is one, is stored; before there is one, the new local id is unused. */
    ghost predicate Ready(target: ConversationModel?, freshId: string)
      reads this
    {
      if target == null then freshId !in byId else Stored(byId, target)
    }

    /** One unused identifier goes to the target, else to the match if that can take it, else to a new conversation. */
    method PlaceUnused(
      u: Match, found: ConversationModel, pni: Option<string>, freshId: string, target0: ConversationModel?,
      ghost p: Progress) returns (target: ConversationModel)
      requires Wired() && Stored(byId, found) && Ready(target0, freshId) && u.value.Some?
      requires p.book == Snapshot() && p.target == IdOf(target0)
      modifies this, byId.Values
      ensures Wired() && Grown() && Stored(byId, target)
      ensures
        var (book, host) := Host(p, found.id, u, pni, freshId);
        target.id == host && Snapshot() == ContactMerge.ApplyChange(book, host, JustPut(u.slot, u.value))
    {
      var t := target0;
      if t == null && found.Attributes().Get(u.slot).None? { t := found; }
      // The PNI can be in the serviceId slot.
      if t == null && u.slot == ServiceIdSlot && found.serviceId == pni { t := found; }
      if t == null && u.slot == ServiceIdSlot && found.serviceId == found.pni { t := found; }
      if t == null { t := GetOrCreate(u.value.value, Keep, Keep, freshId); }
      target := t;
      ApplyChange(target, JustPut(u.slot, u.value));
    }

    /** The inner loop over the identifiers that matched nothing so far. */
    method ResolveUnused(
      unused: seq<Match>, found: ConversationModel, pni: Option<string>, freshId: string,
      target0: ConversationModel?, ghost p0: Progress) returns (target: ConversationModel?)
      requires Wired() && Stored(byId, found) && Ready(target0, freshId)
      requires p0.book == Snapshot() && p0.target == IdOf(target0)
      requires forall u <- unused :: u.value.Some?
      modifies this, byId.Values
      ensures Wired() && Grown() && Ready(target, freshId)
      ensures ContactMerge.ResolveUnused(p0, found.id, pni, freshId, unused)
              == p0.(book := Snapshot(), target := IdOf(target))
    {
      target := target0;
      ghost var p := p0;
      for j := 0 to |unused|
        invariant Wired() && Grown() && Ready(target, freshId)
        invariant p == p0.(book := Snapshot(), target := IdOf(target))
        invariant ContactMerge.ResolveUnused(p0, found.id, pni, freshId, unused)
                  == ContactMerge.ResolveUnused(p, found.id, pni, freshId, unused[j..])
      {
        assert unused[j..][0] == unused[j] && unused[j..][1..] == unused[j + 1..];
        target := PlaceUnused(unused[j], found, pni, freshId, target, p);
        p := p0.(book := Snapshot(), target := IdOf(target));
      }
    }

    /** The matched identifier is taken from its conversation first, then given to the target. */
    method MoveIdentifier(
      m: ConvoMatch, found: ConversationModel, target: ConversationModel, pni: Option<string>, merges0: seq<Merge>,
      ghost p: Progress) returns (merges: seq<Merge>)
      requires Wired() && Stored(byId, found) && Stored(byId, target)
      requires p.book == Snapshot() && p.merges == merges0
      modifies this, byId.Values
      ensures Wired() && byId == old(byId)
      ensures p.(book := Snapshot(), merges := merges)
              == ContactMerge.MoveIdentifier(p, target.id, m.AsMatch(), found.id, pni)
    {
      merges := merges0;
      var change := JustPut(m.slot, None);
      if m.slot != ServiceIdSlot && found.serviceId == pni { change := change.(serviceId := Put(None)); }
      ApplyChange(found, change);
      var willMerge := found.serviceId.None? && found.e164.None? && found.pni.None?;
      ApplyChange(target, JustPut(m.slot, m.value));
      if willMerge { merges := merges + [Merge(target.id, found.id)]; }
    }

    /** One round of the loop over the three lookups. */
    method ProcessMatch(
      m: ConvoMatch, pni: Option<string>, freshId: string, target0: ConversationModel?, unused0: seq<Match>,
      merges0: seq<Merge>)
      returns (target: ConversationModel?, unused: seq<Match>, merges: seq<Merge>)
      requires Wired() && Ready(target0, freshId) && (m.found != null ==> Stored(byId, m.found) && m.value.Some?)
      requires forall u <- unused0 :: u.value.Some?
      modifies this, byId.Values
      ensures Wired() && Grown() && Ready(target, freshId) && forall u <- unused :: u.value.Some?
      ensures Progress(Snapshot(), IdOf(target), unused, merges)
              == ContactMerge.ProcessMatch(
                   Progress(old(Snapshot()), IdOf(target0), unused0, merges0), m.AsMatch(), pni, freshId)
    {
      target, unused, merges := target0, unused0, merges0;
      if m.value.None? { return; }
      var found := m.found;
      if found == null {
        if target != null {
          ApplyChange(target, JustPut(m.slot, m.value));
        } else {
          unused := unused + [m.AsMatch()];
        }
        return;
      }
      ghost var p0 := Progress(Snapshot(), IdOf(target0), unused0, merges0);
      target := ResolveUnused(unused, found, pni, freshId, target, p0);
      unused := [];
      if target != null && target != found {
        merges := MoveIdentifier(m, found, target, pni, merges, Progress(Snapshot(), IdOf(target), [], merges));
      } else if target != null && target.Attributes().Get(m.slot).None? {
        ApplyChange(target, JustPut(m.slot, m.value));
      }
      if target == null { target := found; }
    }

    /** The loop over the three lookups. */
    method RunRounds(matches: seq<ConvoMatch>, pni: Option<string>, freshId: string)
      returns (target: ConversationModel?, merges: seq<Merge>)
      requires Wired() && freshId !in byId
      requires forall m <- matches :: m.found != null ==> Stored(byId, m.found) && m.value.Some?
      modifies this, byId.Values
      ensures Wired() && Grown() && Ready(target, freshId)
      ensures
        var p := Rounds(Progress(old(Snapshot()), None, [], []), AllMatches(matches), pni, freshId);
        p.book == Snapshot() && p.target == IdOf(target) && p.merges == merges
    {
      var unused: seq<Match>;
      target, unused, merges := null, [], [];
      ghost var p := Progress(Snapshot(), None, [], []);
      for i := 0 to |matches|
        invariant Wired() && Grown() && Ready(target, freshId)
        invariant forall u <- unused :: u.value.Some?
        invariant p == Progress(Snapshot(), IdOf(target), unused, merges)
        invariant Rounds(Progress(old(Snapshot()), None, [], []), AllMatches(matches), pni, freshId)
                  == Rounds(p, AllMatches(matches)[i..], pni, freshId)
      {
        ghost var rest := AllMatches(matches)[i..];
        assert rest[0] == matches[i].AsMatch() && rest[1..] == AllMatches(matches)[i + 1..];
        target, unused, merges := ProcessMatch(matches[i], pni, freshId, target, unused, merges);
        p := Progress(Snapshot(), IdOf(target), unused, merges);
      }
    }

    method FindMatches(
      aci: Option<string>, e164: Option<string>, pni: Option<string>)
      returns (matches: seq<ConvoMatch>)
      requires Wired()
      ensures AllMatches(matches) == Matches(Snapshot(), aci, e164, pni)
      ensures forall m <- matches :: m.found != null ==> Stored(byId, m.found) && m.value.Some?
    {
      var first := FindMatch(ServiceIdSlot, aci);
      var second := FindMatch(E164Slot, e164);
      var third := FindMatch(PniSlot, pni);
      matches := [first, second, third];
    }

    method FindMatch(slot: MergeSlot, value: Option<string>) returns (m: ConvoMatch)
      requires Wired()
      ensures m.AsMatch() == Match(slot, value, Lookup(Snapshot(), value))
      ensures m.found != null ==> Stored(byId, m.found) && m.value.Some?
    {
      var found := Get(value);
      m := ConvoMatch(slot, value, found);
    }

    /** `maybeMergeContacts` with the merges it starts; `ok` is false where it throws. */
    method MaybeMergeContacts(aci: Option<string>, e164: Option<string>, pni: Option<string>, freshId: string)
      returns (ok: bool, conversation: ConversationModel?, merges: seq<Merge>)
      requires Wired() && freshId !in byId
      modifies this, byId.Values
      ensures Wired() && Grown() && ok == Admitted(aci, e164, pni)
      ensures ok ==> conversation != null && Stored(byId, conversation)
      ensures
        var r := ContactMerge.MaybeMergeContacts(old(Snapshot()), aci, e164, pni, freshId);
        if ok then r == Merged(Snapshot(), conversation.id, merges) else r.Rejected? && Snapshot() == old(Snapshot())
    {
      if aci.Some? && IsPniString(aci.value) { return false, null, []; }
      if aci.None? && e164.None? && pni.None? { return false, null, []; }
      ok := true;
      var matches := FindMatches(aci, e164, pni);
      conversation, merges := RunRounds(matches, pni, freshId);
      ghost var p := Progress(Snapshot(), IdOf(conversation), [], merges);
      conversation := FoundOrMade(conversation, aci, e164, pni, freshId, p);
    }

    method FoundOrMade(
      target: ConversationModel?, aci: Option<string>, e164: Option<string>, pni: Option<string>, freshId: string,
      ghost p: Progress)
      returns (conversation: ConversationModel)
      requires Wired() && Ready(target, freshId) && Admitted(aci, e164, pni)
      requires p.book == Snapshot() && p.target == IdOf(target)
      modifies this
      ensures Wired() && Grown() && Stored(byId, conversation)
      ensures AfterRounds(p, aci, e164, pni, freshId) == Merged(Snapshot(), conversation.id, p.merges)
    {
      if target != null { return target; }
      var identifier := if aci.Some? then aci.value else if pni.Some? then pni.value else e164.value;
      conversation := GetOrCreate(identifier, Put(e164), Put(pni), freshId);
    }
  }

  function AllMatches(ms: seq<ConvoMatch>): (r: seq<Match>)
    ensures |r| == |ms| && forall i :: 0 <= i < |ms| ==> r[i] == ms[i].AsMatch()
  {
    seq(|ms|, i requires 0 <= i < |ms| => ms[i].AsMatch())
  }
}
