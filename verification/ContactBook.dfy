/**
 The conversation store of ts/ConversationController.preload.ts as a value: the
 identifying attributes of every conversation and the lookup tables that index them.
 Conversations are named by their local id.
 */
module ContactBook {
  import opened Wrappers

  type Id = string

  // ---------------------------------------------------------------- identifiers

  predicate IsDigit(c: char) { '0' <= c <= '9' }

  predicate IsHexDigit(c: char) {
    IsDigit(c) || 'a' <= c <= 'f' || 'A' <= c <= 'F'
  }

  /** The layout `isValidUuid` matches; the version and variant digits are not told apart. */
  predicate IsUuid(s: string) {
    && |s| == 36
    && forall k :: 0 <= k < 36 ==> if k in {8, 13, 18, 23} then s[k] == '-' else IsHexDigit(s[k])
  }

  predicate IsPniString(s: string) { "PNI:" <= s }

  predicate IsServiceIdString(s: string) { IsUuid(s) || IsPniString(s) }

  /** A phone number in E.164 form: a plus sign and digits. */
  predicate IsE164(s: string) {
    && |s| > 1
    && s[0] == '+'
    && forall k :: 1 <= k < |s| ==> IsDigit(s[k])
  }

  /** The two kinds of identifier never collide, not even through the "+" fallback of `get`. */
  lemma NamespacesDisjoint(s: string)
    requires IsServiceIdString(s)
    ensures s != "" && !IsE164(s) && !IsE164("+" + s)
  {
    if IsUuid(s) {
      assert IsHexDigit(s[0]) && s[8] == '-';
      assert ("+" + s)[9] == '-';
    } else {
      assert s[0] == 'P' && ("+" + s)[1] == 'P';
    }
  }

  lemma NoDoublePlus(s: string)
    requires IsE164(s)
    ensures s != "" && !IsServiceIdString(s) && !IsE164("+" + s)
  {
    assert ("+" + s)[1] == '+';
  }

  // ---------------------------------------------------------------- contacts

  /** Direct conversations, and groups by the version two id they have or would migrate to. */
  datatype Kind = Direct | GroupV1(derivedGroupV2Id: string) | GroupV2

  datatype Slot = ServiceIdSlot | E164Slot | PniSlot | GroupIdSlot

  datatype Contact = Contact(
    serviceId: Option<string>,
    e164: Option<string>,
    pni: Option<string>,
    groupId: Option<string>)
  {
    function Get(slot: Slot): Option<string> {
      match slot
      case ServiceIdSlot => serviceId
      case E164Slot => e164
      case PniSlot => pni
      case GroupIdSlot => groupId
    }

    function With(slot: Slot, value: Option<string>): Contact {
      match slot
      case ServiceIdSlot => this.(serviceId := value)
      case E164Slot => this.(e164 := value)
      case PniSlot => this.(pni := value)
      case GroupIdSlot => this.(groupId := value)
    }

    /** A service id may sit in either of two slots. */
    predicate Holds(v: string) { serviceId == Some(v) || pni == Some(v) }

    /** Nothing is left that could identify this conversation's recipient. */
    predicate Bare() { serviceId.None? && e164.None? && pni.None? }

    predicate WellTyped() {
      && (serviceId.Some? ==> IsServiceIdString(serviceId.value))
      && (pni.Some? ==> IsServiceIdString(pni.value))
      && (e164.Some? ==> IsE164(e164.value))
    }
  }

  ghost predicate Shares(c: Contact, d: Contact) {
    || (c.e164.Some? && c.e164 == d.e164)
    || (c.serviceId.Some? && d.Holds(c.serviceId.value))
    || (c.pni.Some? && d.Holds(c.pni.value))
  }

  /** No identifier belongs to two conversations; serviceId and pni form one namespace. */
  ghost predicate Disjoint(contacts: map<Id, Contact>) {
    forall i, j :: i in contacts && j in contacts && i != j ==> !Shares(contacts[i], contacts[j])
  }

  // ---------------------------------------------------------------- lookups

  datatype Book = Book(
    contacts: map<Id, Contact>,
    byServiceId: map<string, Id>,
    byE164: map<string, Id>,
    byPni: map<string, Id>,
    byGroupId: map<string, Id>)
  {
    function Index(slot: Slot): map<string, Id> {
      match slot
      case ServiceIdSlot => byServiceId
      case E164Slot => byE164
      case PniSlot => byPni
      case GroupIdSlot => byGroupId
    }

    function WithIndex(slot: Slot, idx: map<string, Id>): Book {
      match slot
      case ServiceIdSlot => this.(byServiceId := idx)
      case E164Slot => this.(byE164 := idx)
      case PniSlot => this.(byPni := idx)
      case GroupIdSlot => this.(byGroupId := idx)
    }
  }

  predicate Owns(contacts: map<Id, Contact>, id: Id, slot: Slot, v: string) {
    id in contacts && contacts[id].Get(slot) == Some(v)
  }

  /** The index is exactly the map computed from the conversations. */
  ghost predicate IndexMatches(idx: map<string, Id>, contacts: map<Id, Contact>, slot: Slot) {
    && (forall v :: v in idx ==> Owns(contacts, idx[v], slot, v))
    && (forall id, v :: Owns(contacts, id, slot, v) ==> v in idx && idx[v] == id)
  }

  ghost predicate IndexExact(b: Book, slot: Slot) {
    IndexMatches(b.Index(slot), b.contacts, slot)
  }

  ghost predicate Exact(b: Book) {
    IndexExact(b, ServiceIdSlot) && IndexExact(b, E164Slot) && IndexExact(b, PniSlot) && IndexExact(b, GroupIdSlot)
  }

  ghost predicate WellTyped(contacts: map<Id, Contact>) {
    forall id :: id in contacts ==> contacts[id].WellTyped()
  }

  ghost predicate Valid(b: Book) {
    Exact(b) && Disjoint(b.contacts) && WellTyped(b.contacts)
  }

  /** `get`: the tables are tried in a fixed order, phone numbers also with a "+" in front. */
  function Lookup(b: Book, key: Option<string>): Option<Id> {
    if key.None? || key.value == "" then None
    else
      var k := key.value;
      if k in b.byE164 then Some(b.byE164[k])
      else if "+" + k in b.byE164 then Some(b.byE164["+" + k])
      else if k in b.byServiceId then Some(b.byServiceId[k])
      else if k in b.byPni then Some(b.byPni[k])
      else if k in b.byGroupId then Some(b.byGroupId[k])
      else if k in b.contacts then Some(k)
      else None
  }

  /** No conversation uses `v` as its local id or group id. */
  ghost predicate NotAnId(b: Book, v: Option<string>) {
    v.Some? ==> v.value !in b.contacts && v.value !in b.byGroupId
  }

  /** On an exact, disjoint store `get` finds precisely the holder of a service id ... */
  lemma LookupServiceId(b: Book, v: string)
    requires Valid(b) && IsServiceIdString(v) && NotAnId(b, Some(v))
    ensures Lookup(b, Some(v)).Some? ==> Lookup(b, Some(v)).value in b.contacts
    ensures forall id :: id in b.contacts ==> (Lookup(b, Some(v)) == Some(id) <==> b.contacts[id].Holds(v))
  {
    NamespacesDisjoint(v);
    assert v !in b.byE164 && "+" + v !in b.byE164;
    forall id | id in b.contacts
      ensures Lookup(b, Some(v)) == Some(id) <==> b.contacts[id].Holds(v)
    {
      assert b.contacts[id].Holds(v) <==> Owns(b.contacts, id, ServiceIdSlot, v) || Owns(b.contacts, id, PniSlot, v);
      if v in b.byServiceId {
        var j := b.byServiceId[v];
        assert Owns(b.contacts, j, ServiceIdSlot, v);
        assert j != id ==> !Shares(b.contacts[j], b.contacts[id]);
      }
    }
  }

  /** ... and of a phone number. */
  lemma LookupE164(b: Book, v: string)
    requires Valid(b) && IsE164(v) && NotAnId(b, Some(v))
    ensures Lookup(b, Some(v)).Some? ==> Lookup(b, Some(v)).value in b.contacts
    ensures forall id :: id in b.contacts ==> (Lookup(b, Some(v)) == Some(id) <==> b.contacts[id].e164 == Some(v))
  {
    NoDoublePlus(v);
    assert "+" + v !in b.byE164;
    assert v !in b.byServiceId && v !in b.byPni;
    assert forall id :: id in b.contacts ==> (b.contacts[id].e164 == Some(v) <==> Owns(b.contacts, id, E164Slot, v));
  }

  /** At which of its six attempts `get` comes upon a conversation, if at all. */
  function Attempt(c: Contact, id: Id, key: string): nat {
    if c.e164 == Some(key) then 0
    else if c.e164 == Some("+" + key) then 1
    else if c.serviceId == Some(key) then 2
    else if c.pni == Some(key) then 3
    else if c.groupId == Some(key) then 4
    else if id == key then 5
    else 6
  }

  lemma AttemptOwns(b: Book, id: Id, key: string)
    requires id in b.contacts
    ensures
      var n := Attempt(b.contacts[id], id, key);
      && (n == 0 <==> Owns(b.contacts, id, E164Slot, key)) && (n == 1 ==> Owns(b.contacts, id, E164Slot, "+" + key))
      && (n == 2 ==> Owns(b.contacts, id, ServiceIdSlot, key)) && (n == 3 ==> Owns(b.contacts, id, PniSlot, key))
      && (n == 4 ==> Owns(b.contacts, id, GroupIdSlot, key))
      && (Owns(b.contacts, id, E164Slot, "+" + key) ==> n <= 1) && (Owns(b.contacts, id, ServiceIdSlot, key) ==> n <= 2)
      && (Owns(b.contacts, id, PniSlot, key) ==> n <= 3) && (Owns(b.contacts, id, GroupIdSlot, key) ==> n <= 4)
  {}

  /** What `get` returns is come upon at some attempt, and at none before that is anybody. */
  lemma LookupAttempt(b: Book, key: string, id: Id)
    requires Exact(b) && key != "" && Lookup(b, Some(key)) == Some(id)
    ensures id in b.contacts && Attempt(b.contacts[id], id, key) < 6
    ensures forall j :: j in b.contacts && j != id ==> Attempt(b.contacts[id], id, key) < Attempt(b.contacts[j], j, key)
  {
    AttemptOwns(b, id, key);
    forall j | j in b.contacts && j != id
      ensures Attempt(b.contacts[id], id, key) < Attempt(b.contacts[j], j, key)
    {
      AttemptOwns(b, j, key);
    }
  }

  /** On exact tables `get` of any key but the empty one finds exactly the conversation it comes upon first. */
  lemma LookupIsFirst(b: Book, key: string, id: Id)
    requires Exact(b) && id in b.contacts
    ensures
      Lookup(b, Some(key)) == Some(id)
      <==> key != "" && Attempt(b.contacts[id], id, key) < 6
           && forall j :: j in b.contacts && j != id ==>
                Attempt(b.contacts[id], id, key) < Attempt(b.contacts[j], j, key)
  {
    AttemptOwns(b, id, key);
    if key != "" && Lookup(b, Some(key)).Some? {
      LookupAttempt(b, key, Lookup(b, Some(key)).value);
    }
  }

  /** Digits find the phone number they are with a plus sign in front. */
  lemma LookupDigits(b: Book, v: string, id: Id)
    requires Valid(b) && IsE164("+" + v) && NotAnId(b, Some(v))
    ensures Lookup(b, Some(v)) == Some(id) <==> id in b.contacts && b.contacts[id].e164 == Some("+" + v)
  {
    assert IsDigit(("+" + v)[1]) && v[0] == ("+" + v)[1];
    assert !IsServiceIdString(v) by { if IsServiceIdString(v) { NamespacesDisjoint(v); } }
    assert id in b.contacts ==> (b.contacts[id].e164 == Some("+" + v) <==> Owns(b.contacts, id, E164Slot, "+" + v));
  }

  ghost predicate NoIdentifier(v: string) { v != "" && !IsServiceIdString(v) && !IsE164(v) && !IsE164("+" + v) }

  lemma NoIdentifierUnfiled(b: Book, v: string)
    requires Valid(b) && NoIdentifier(v)
    ensures v !in b.byE164 && "+" + v !in b.byE164 && v !in b.byServiceId && v !in b.byPni
  {}

  lemma GroupIdFiled(b: Book, g: string, id: Id)
    requires IndexExact(b, GroupIdSlot)
    ensures g in b.byGroupId && b.byGroupId[g] == id <==> id in b.contacts && b.contacts[id].groupId == Some(g)
  {
    assert id in b.contacts ==> (b.contacts[id].groupId == Some(g) <==> Owns(b.contacts, id, GroupIdSlot, g));
  }

  /** A group id finds the conversation that has it ... */
  lemma LookupGroupId(b: Book, g: string, id: Id)
    requires Valid(b) && NoIdentifier(g) && g !in b.contacts
    ensures Lookup(b, Some(g)) == Some(id) <==> id in b.contacts && b.contacts[id].groupId == Some(g)
  {
    NoIdentifierUnfiled(b, g);
    GroupIdFiled(b, g, id);
  }

  /** ... and a local id the conversation itself. */
  lemma LookupLocalId(b: Book, v: string, id: Id)
    requires Valid(b) && NoIdentifier(v)
    requires forall j :: j in b.contacts ==> b.contacts[j].groupId != Some(v)
    ensures Lookup(b, Some(v)) == Some(id) <==> id == v && id in b.contacts
  {
    NoIdentifierUnfiled(b, v);
    if v in b.byGroupId { GroupIdFiled(b, v, b.byGroupId[v]); }
  }

  // ---------------------------------------------------------------- updating one attribute

  /** `idUpdated`: the old key is deleted whoever owns it, the new one is overwritten. */
  function IdUpdated(b: Book, id: Id, slot: Slot, oldValue: Option<string>): Book
    requires id in b.contacts
  {
    var idx := if oldValue.Some? then b.Index(slot) - {oldValue.value} else b.Index(slot);
    var now := b.contacts[id].Get(slot);
    b.WithIndex(slot, if now.Some? then idx[now.value := id] else idx)
  }

  /** `updateServiceId`, `updateE164` and `updatePni` of the conversation model. */
  function Update(b: Book, id: Id, slot: Slot, value: Option<string>): Book
    requires id in b.contacts
  {
    var c := b.contacts[id];
    if c.Get(slot) == value then b
    else IdUpdated(b.(contacts := b.contacts[id := c.With(slot, value)]), id, slot, c.Get(slot))
  }

  /** Nobody but `id` owns `value`. */
  ghost predicate Free(contacts: map<Id, Contact>, id: Id, slot: Slot, value: Option<string>) {
    value.Some? ==>
      forall j :: j in contacts && j != id ==>
        match slot
        case E164Slot => contacts[j].e164 != value
        case GroupIdSlot => contacts[j].groupId != value
        case _ => !contacts[j].Holds(value.value)
  }

  predicate TypedValue(slot: Slot, value: Option<string>) {
    value.Some? ==>
      match slot
      case E164Slot => IsE164(value.value)
      case GroupIdSlot => true
      case _ => IsServiceIdString(value.value)
  }

  /** Recognising the result of an update table by table. */
  lemma UpdateByTables(b: Book, b': Book, id: Id, slot: Slot, value: Option<string>)
    requires id in b.contacts && b.contacts[id].Get(slot) != value
    requires b'.contacts == b.contacts[id := b.contacts[id].With(slot, value)]
    requires
      var was := b.contacts[id].Get(slot);
      var idx := if was.Some? then b.Index(slot) - {was.value} else b.Index(slot);
      b'.Index(slot) == if value.Some? then idx[value.value := id] else idx
    requires forall s: Slot :: s != slot ==> b'.Index(s) == b.Index(s)
    ensures b' == Update(b, id, slot, value)
  {
    GetWith(b.contacts[id], slot, slot, value);
    assert b'.byServiceId == b'.Index(ServiceIdSlot) && b'.byE164 == b'.Index(E164Slot);
    assert b'.byPni == b'.Index(PniSlot) && b'.byGroupId == b'.Index(GroupIdSlot);
    match slot
    case ServiceIdSlot =>
    case E164Slot =>
    case PniSlot =>
    case GroupIdSlot =>
  }

  lemma UpdateContacts(b: Book, id: Id, slot: Slot, value: Option<string>)
    requires id in b.contacts
    ensures Update(b, id, slot, value).contacts == b.contacts[id := b.contacts[id].With(slot, value)]
  {}

  lemma GetWith(c: Contact, slot: Slot, s: Slot, value: Option<string>)
    ensures c.With(slot, value).Get(s) == if s == slot then value else c.Get(s)
  {}

  /** Taking out the key of one conversation ... */
  lemma IndexCut(idx: map<string, Id>, cs: map<Id, Contact>, id: Id, slot: Slot)
    requires IndexMatches(idx, cs, slot)
    ensures
      var was := if id in cs then cs[id].Get(slot) else None;
      IndexMatches(if was.Some? then idx - {was.value} else idx, cs - {id}, slot)
  {
    var was := if id in cs then cs[id].Get(slot) else None;
    assert was.Some? ==> Owns(cs, id, slot, was.value);
    assert forall j, v :: Owns(cs - {id}, j, slot, v) <==> Owns(cs, j, slot, v) && j != id;
  }

  /** ... and putting in the one it has now. */
  lemma IndexPut(idx: map<string, Id>, cs: map<Id, Contact>, cs': map<Id, Contact>, id: Id, slot: Slot)
    requires IndexMatches(idx, cs, slot) && id !in cs && id in cs'
    requires forall j, v :: j != id ==> (Owns(cs', j, slot, v) <==> Owns(cs, j, slot, v))
    requires forall j, v :: Owns(cs', id, slot, v) ==> !Owns(cs, j, slot, v)
    ensures
      var now := cs'[id].Get(slot);
      IndexMatches(if now.Some? then idx[now.value := id] else idx, cs', slot)
  {
    assert forall v :: Owns(cs', id, slot, v) <==> cs'[id].Get(slot) == Some(v);
  }

  /** Replacing what one conversation owns in a slot. */
  lemma IndexReplace(idx: map<string, Id>, cs: map<Id, Contact>, cs': map<Id, Contact>, id: Id, slot: Slot)
    requires IndexMatches(idx, cs, slot) && id in cs'
    requires forall j, v :: j != id ==> (Owns(cs', j, slot, v) <==> Owns(cs, j, slot, v))
    requires forall j, v :: Owns(cs', id, slot, v) && Owns(cs, j, slot, v) ==> j == id
    ensures
      var was := if id in cs then cs[id].Get(slot) else None;
      var now := cs'[id].Get(slot);
      var cut := if was.Some? then idx - {was.value} else idx;
      IndexMatches(if now.Some? then cut[now.value := id] else cut, cs', slot)
  {
    var was := if id in cs then cs[id].Get(slot) else None;
    IndexCut(idx, cs, id, slot);
    assert forall j, v :: Owns(cs - {id}, j, slot, v) <==> Owns(cs, j, slot, v) && j != id;
    IndexPut(if was.Some? then idx - {was.value} else idx, cs - {id}, cs', id, slot);
  }

  lemma UpdateKeepsIndex(b: Book, id: Id, slot: Slot, value: Option<string>)
    requires IndexExact(b, slot) && id in b.contacts && Free(b.contacts, id, slot, value)
    ensures IndexExact(Update(b, id, slot, value), slot)
  {
    var c := b.contacts[id];
    var cs' := b.contacts[id := c.With(slot, value)];
    GetWith(c, slot, slot, value);
    FreeMeansUnowned(b.contacts, id, slot, value);
    IndexReplace(b.Index(slot), b.contacts, cs', id, slot);
  }

  lemma FreeMeansUnowned(cs: map<Id, Contact>, id: Id, slot: Slot, value: Option<string>)
    requires Free(cs, id, slot, value)
    ensures forall j, v :: value == Some(v) && Owns(cs, j, slot, v) ==> j == id
  {}

  lemma SameOwners(idx: map<string, Id>, cs: map<Id, Contact>, cs': map<Id, Contact>, slot: Slot)
    requires IndexMatches(idx, cs, slot) && forall j, v :: Owns(cs', j, slot, v) <==> Owns(cs, j, slot, v)
    ensures IndexMatches(idx, cs', slot)
  {}

  lemma OtherIndex(b: Book, id: Id, slot: Slot, value: Option<string>, s: Slot)
    requires id in b.contacts && s != slot
    ensures Update(b, id, slot, value).Index(s) == b.Index(s)
  {}

  lemma UpdateKeepsOtherIndex(b: Book, id: Id, slot: Slot, value: Option<string>, s: Slot)
    requires IndexExact(b, s) && id in b.contacts && s != slot
    ensures IndexExact(Update(b, id, slot, value), s)
  {
    var cs' := b.contacts[id := b.contacts[id].With(slot, value)];
    UpdateContacts(b, id, slot, value);
    OtherIndex(b, id, slot, value, s);
    GetWith(b.contacts[id], slot, s, value);
    assert forall j, v :: Owns(cs', j, s, v) <==> Owns(b.contacts, j, s, v);
    SameOwners(b.Index(s), b.contacts, cs', s);
  }

  lemma UpdateKeepsExact(b: Book, id: Id, slot: Slot, value: Option<string>)
    requires Exact(b) && id in b.contacts && Free(b.contacts, id, slot, value)
    ensures Exact(Update(b, id, slot, value))
  {
    forall s: Slot
      ensures IndexExact(Update(b, id, slot, value), s)
    {
      if s == slot { UpdateKeepsIndex(b, id, slot, value); } else { UpdateKeepsOtherIndex(b, id, slot, value, s); }
    }
  }

  lemma UpdateKeepsDisjoint(cs: map<Id, Contact>, id: Id, slot: Slot, value: Option<string>)
    requires Disjoint(cs) && id in cs && Free(cs, id, slot, value)
    ensures Disjoint(cs[id := cs[id].With(slot, value)])
  {}

  /** Writing an identifier nobody else owns keeps every index exact and the store disjoint. */
  lemma UpdateKeepsValid(b: Book, id: Id, slot: Slot, value: Option<string>)
    requires Valid(b) && id in b.contacts
    requires Free(b.contacts, id, slot, value) && TypedValue(slot, value)
    ensures Valid(Update(b, id, slot, value))
  {
    UpdateContacts(b, id, slot, value);
    UpdateKeepsExact(b, id, slot, value);
    UpdateKeepsDisjoint(b.contacts, id, slot, value);
    assert b.contacts[id].With(slot, value).WellTyped();
  }

  /** The old key is deleted whoever owns it: with a shared value the other owner drops out. */
  lemma UpdateNeedsDisjoint(b: Book, i: Id, j: Id, slot: Slot, v: string)
    requires i in b.contacts && j in b.contacts && i != j
    requires b.contacts[i].Get(slot) == b.contacts[j].Get(slot) == Some(v)
    ensures !IndexExact(Update(b, i, slot, None), slot)
  {
    var b' := Update(b, i, slot, None);
    GetWith(b.contacts[i], slot, slot, None);
    assert Owns(b'.contacts, j, slot, v) && v !in b'.Index(slot);
  }

  // ---------------------------------------------------------------- adding and removing

  /** The contact a table has under `v`, if any. */
  function Entry(contacts: map<Id, Contact>, idx: map<string, Id>, v: Option<string>): Contact {
    if v.Some? && v.value in idx && idx[v.value] in contacts then contacts[idx[v.value]]
    else Contact(None, None, None, None)
  }

  /** One table of `#addToLookup`: an existing entry is replaced unless it is the better contact. */
  function Indexed(idx: map<string, Id>, v: Option<string>, id: Id, better: bool): map<string, Id> {
    if v.Some? && !(v.value in idx && better) then idx[v.value := id] else idx
  }

  /** `#addConversation` with the conflict rules of `#addToLookup`. */
  function AddConversation(b: Book, id: Id, c: Contact): Book {
    var cs := b.contacts[id := c];
    Book(
      cs,
      Indexed(b.byServiceId, c.serviceId, id, Entry(cs, b.byServiceId, c.serviceId).e164.Some?),
      Indexed(b.byE164, c.e164, id, Entry(cs, b.byE164, c.e164).serviceId.Some?),
      Indexed(b.byPni, c.pni, id, Entry(cs, b.byPni, c.pni).serviceId.Some?),
      Indexed(b.byGroupId, c.groupId, id, false))
  }

  /** Having the record in the store before its keys are added makes no difference. */
  lemma PushedThenAdded(b: Book, id: Id, c: Contact)
    ensures AddConversation(b.(contacts := b.contacts[id := c]), id, c) == AddConversation(b, id, c)
  {
    assert b.contacts[id := c][id := c] == b.contacts[id := c];
  }

  function Unindexed(idx: map<string, Id>, v: Option<string>, id: Id): map<string, Id> {
    if v.Some? && (v.value !in idx || idx[v.value] == id) then idx - {v.value} else idx
  }

  /** `#removeConversation` and `#removeFromLookup`. */
  function RemoveConversation(b: Book, id: Id): Book
    requires id in b.contacts
  {
    var c := b.contacts[id];
    Book(
      b.contacts - {id},
      Unindexed(b.byServiceId, c.serviceId, id),
      Unindexed(b.byE164, c.e164, id),
      Unindexed(b.byPni, c.pni, id),
      Unindexed(b.byGroupId, c.groupId, id))
  }

  lemma AddKeepsIndex(b: Book, id: Id, c: Contact, s: Slot)
    requires IndexExact(b, s) && id !in b.contacts && Free(b.contacts, id, s, c.Get(s))
    ensures IndexExact(AddConversation(b, id, c), s)
  {
    FreeMeansUnowned(b.contacts, id, s, c.Get(s));
    assert c.Get(s).Some? ==> c.Get(s).value !in b.Index(s);
    IndexReplace(b.Index(s), b.contacts, b.contacts[id := c], id, s);
  }

  lemma AddKeepsDisjoint(cs: map<Id, Contact>, id: Id, c: Contact)
    requires Disjoint(cs) && id !in cs
    requires Free(cs, id, ServiceIdSlot, c.serviceId) && Free(cs, id, E164Slot, c.e164) && Free(cs, id, PniSlot, c.pni)
    ensures Disjoint(cs[id := c])
  {}

  lemma AddKeepsValid(b: Book, id: Id, c: Contact)
    requires Valid(b) && id !in b.contacts && c.WellTyped()
    requires Free(b.contacts, id, ServiceIdSlot, c.serviceId) && Free(b.contacts, id, E164Slot, c.e164)
    requires Free(b.contacts, id, PniSlot, c.pni) && Free(b.contacts, id, GroupIdSlot, c.groupId)
    ensures Valid(AddConversation(b, id, c))
  {
    AddKeepsIndex(b, id, c, ServiceIdSlot);
    AddKeepsIndex(b, id, c, E164Slot);
    AddKeepsIndex(b, id, c, PniSlot);
    AddKeepsIndex(b, id, c, GroupIdSlot);
    AddKeepsDisjoint(b.contacts, id, c);
  }

  lemma RemoveKeepsIndex(b: Book, id: Id, s: Slot)
    requires IndexExact(b, s) && id in b.contacts
    ensures IndexExact(RemoveConversation(b, id), s)
  {
    var b' := RemoveConversation(b, id);
    var was := b.contacts[id].Get(s);
    assert forall v :: Owns(b.contacts, id, s, v) <==> was == Some(v);
    assert b'.Index(s) == if was.Some? then b.Index(s) - {was.value} else b.Index(s);
    assert forall j, v :: Owns(b'.contacts, j, s, v) <==> j != id && Owns(b.contacts, j, s, v);
  }

  /** Whatever the tables hold, removing a conversation takes from each just its entry there, if it is its own. */
  lemma RemoveTakesOwnEntries(b: Book, id: Id, s: Slot, v: string)
    requires id in b.contacts
    ensures
      var r := RemoveConversation(b, id);
      && r.contacts == b.contacts - {id}
      && (v in r.Index(s) <==> v in b.Index(s) && !(b.contacts[id].Get(s) == Some(v) && b.Index(s)[v] == id))
      && (v in r.Index(s) ==> r.Index(s)[v] == b.Index(s)[v])
  {
    match s
    case ServiceIdSlot =>
    case E164Slot =>
    case PniSlot =>
    case GroupIdSlot =>
  }

  lemma RemoveKeepsValid(b: Book, id: Id)
    requires Valid(b) && id in b.contacts
    ensures Valid(RemoveConversation(b, id))
  {
    RemoveKeepsIndex(b, id, ServiceIdSlot);
    RemoveKeepsIndex(b, id, E164Slot);
    RemoveKeepsIndex(b, id, PniSlot);
    RemoveKeepsIndex(b, id, GroupIdSlot);
  }

  /** Edits: what `getOrCreate` receives as additional initial properties and what a merge changes. */
  datatype Edit = Keep | Put(value: Option<string>)
  {
    predicate Truthy() { Put? && value.Some? }
  }

  /** The attributes a private conversation is born with. */
  function NewContact(identifier: string, e164: Edit, pni: Edit): Contact {
    var base := if IsServiceIdString(identifier) then Contact(Some(identifier), None, None, None)
                else Contact(None, Some(identifier), None, None);
    base.(e164 := if e164.Put? then e164.value else base.e164, pni := if pni.Put? then pni.value else base.pni)
  }

  /** `getOrCreate` for a private conversation; `freshId` is the generated local id. */
  function GetOrCreate(b: Book, identifier: string, e164: Edit, pni: Edit, freshId: Id): (Book, Id) {
    var found := Lookup(b, Some(identifier));
    if found.Some? then (b, found.value)
    else (AddConversation(b, freshId, NewContact(identifier, e164, pni)), freshId)
  }
}
