/**
 `maybeMergeContacts` and `applyChangeToConversation` of
 ts/ConversationController.preload.ts as functions on the conversation store.
 */
module ContactMerge {
  import opened Wrappers
  import opened ContactBook

  // ---------------------------------------------------------------- applyChangeToConversation

  datatype Change = Change(serviceId: Edit, e164: Edit, pni: Edit)

  /** Merging never touches a group id. */
  type MergeSlot = s: Slot | s != GroupIdSlot witness ServiceIdSlot

  function JustPut(slot: MergeSlot, value: Option<string>): Change {
    match slot
    case ServiceIdSlot => Change(Put(value), Keep, Keep)
    case E164Slot => Change(Keep, Put(value), Keep)
    case PniSlot => Change(Keep, Keep, Put(value))
  }

  /** The three rules that extend a suggested change before it is applied. */
  function Extended(c: Contact, s: Change): Change {
    // A new phone number without its PNI clears the PNI.
    var s := if s.e164.Put? && !s.pni.Truthy() then s.(pni := Put(None)) else s;
    // Without an ACI the PNI also goes in the serviceId slot.
    var s := if s.pni.Truthy() && !s.serviceId.Truthy() && (c.serviceId.None? || c.serviceId == c.pni)
             then s.(serviceId := s.pni) else s;
    // Clearing a PNI that stands in for the service id clears both slots.
    if !s.serviceId.Truthy() && s.pni.Put? && !s.pni.Truthy() && c.serviceId == c.pni
    then s.(serviceId := Put(None)) else s
  }

  function UpdateIf(b: Book, id: Id, slot: Slot, e: Edit): Book
    requires id in b.contacts
  {
    if e.Put? then Update(b, id, slot, e.value) else b
  }

  function WriteAll(b: Book, id: Id, change: Change): Book
    requires id in b.contacts
  {
    var b := UpdateIf(b, id, ServiceIdSlot, change.serviceId);
    var b := UpdateIf(b, id, E164Slot, change.e164);
    UpdateIf(b, id, PniSlot, change.pni)
  }

  /** `id` always names a stored conversation; the guard only makes the function total. */
  function ApplyChange(b: Book, id: Id, suggested: Change): Book {
    if id in b.contacts then WriteAll(b, id, Extended(b.contacts[id], suggested)) else b
  }

  /** The attributes behind a reference, under the same guard. */
  function At(b: Book, id: Id): Contact {
    if id in b.contacts then b.contacts[id] else Contact(None, None, None, None)
  }

  function WrittenSlot(c: Contact, slot: Slot, e: Edit): Contact {
    if e.Put? then c.With(slot, e.value) else c
  }

  function Written(c: Contact, change: Change): Contact {
    var c := WrittenSlot(c, ServiceIdSlot, change.serviceId);
    var c := WrittenSlot(c, E164Slot, change.e164);
    WrittenSlot(c, PniSlot, change.pni)
  }

  /** What a change makes of the one conversation it is applied to. */
  function Edited(c: Contact, suggested: Change): Contact {
    Written(c, Extended(c, suggested))
  }

  ghost predicate Takeable(cs: map<Id, Contact>, id: Id, slot: Slot, e: Edit) {
    e.Put? ==> Free(cs, id, slot, e.value) && TypedValue(slot, e.value)
  }

  lemma UpdateIfSpec(b: Book, id: Id, slot: Slot, e: Edit)
    requires Valid(b) && id in b.contacts && Takeable(b.contacts, id, slot, e)
    ensures Valid(UpdateIf(b, id, slot, e))
    ensures UpdateIf(b, id, slot, e).contacts == b.contacts[id := WrittenSlot(b.contacts[id], slot, e)]
  {
    if e.Put? {
      UpdateContacts(b, id, slot, e.value);
      UpdateKeepsValid(b, id, slot, e.value);
    }
  }

  ghost predicate AllTakeable(cs: map<Id, Contact>, id: Id, s: Change) {
    && Takeable(cs, id, ServiceIdSlot, s.serviceId)
    && Takeable(cs, id, E164Slot, s.e164)
    && Takeable(cs, id, PniSlot, s.pni)
  }

  /** The extension rules only ever write what was suggested, or clear a slot. */
  lemma ExtendedTakeable(cs: map<Id, Contact>, id: Id, c: Contact, s: Change)
    requires AllTakeable(cs, id, s)
    ensures AllTakeable(cs, id, Extended(c, s))
  {}

  /** What is free for a conversation stays so while that conversation changes. */
  lemma TakeableFrame(cs: map<Id, Contact>, id: Id, c: Contact, slot: Slot, e: Edit)
    requires Takeable(cs, id, slot, e)
    ensures Takeable(cs[id := c], id, slot, e)
  {}

  lemma WriteAllSpec(b: Book, id: Id, change: Change)
    requires Valid(b) && id in b.contacts && AllTakeable(b.contacts, id, change)
    ensures Valid(WriteAll(b, id, change))
    ensures WriteAll(b, id, change).contacts == b.contacts[id := Written(b.contacts[id], change)]
  {
    UpdateIfSpec(b, id, ServiceIdSlot, change.serviceId);
    var b1 := UpdateIf(b, id, ServiceIdSlot, change.serviceId);
    TakeableFrame(b.contacts, id, b1.contacts[id], E164Slot, change.e164);
    TakeableFrame(b.contacts, id, b1.contacts[id], PniSlot, change.pni);
    WriteTwoSpec(b1, id, change);
  }

  lemma WriteTwoSpec(b: Book, id: Id, change: Change)
    requires Valid(b) && id in b.contacts
    requires Takeable(b.contacts, id, E164Slot, change.e164) && Takeable(b.contacts, id, PniSlot, change.pni)
    ensures
      var c := WrittenSlot(b.contacts[id], E164Slot, change.e164);
      var r := UpdateIf(UpdateIf(b, id, E164Slot, change.e164), id, PniSlot, change.pni);
      Valid(r) && r.contacts == b.contacts[id := WrittenSlot(c, PniSlot, change.pni)]
  {
    UpdateIfSpec(b, id, E164Slot, change.e164);
    var b1 := UpdateIf(b, id, E164Slot, change.e164);
    TakeableFrame(b.contacts, id, b1.contacts[id], PniSlot, change.pni);
    UpdateIfSpec(b1, id, PniSlot, change.pni);
  }

  /** A change whose identifiers nobody else owns edits one conversation and keeps the store valid throughout. */
  lemma ApplyChangeSpec(b: Book, id: Id, s: Change)
    requires Valid(b) && id in b.contacts && AllTakeable(b.contacts, id, s)
    ensures Valid(ApplyChange(b, id, s))
    ensures ApplyChange(b, id, s).contacts == b.contacts[id := Edited(b.contacts[id], s)]
  {
    ExtendedTakeable(b.contacts, id, b.contacts[id], s);
    WriteAllSpec(b, id, Extended(b.contacts[id], s));
  }

  // ---------------------------------------------------------------- maybeMergeContacts

  /** One of the three lookups a merge starts from. */
  datatype Match = Match(slot: MergeSlot, value: Option<string>, found: Option<Id>)

  /** A call of `mergeOldAndNew`. */
  datatype Merge = Merge(current: Id, obsolete: Id)

  datatype Progress = Progress(book: Book, target: Option<Id>, unused: seq<Match>, merges: seq<Merge>)

  /** Whether a matched conversation can take an identifier that matched nothing. */
  predicate CanHost(c: Contact, slot: MergeSlot, pni: Option<string>) {
    || c.Get(slot).None?
    || (slot == ServiceIdSlot && (c.serviceId == pni || c.serviceId == c.pni))
  }

  /** Where an unused identifier goes: the target, else the match, else a new conversation. */
  function Host(p: Progress, found: Id, u: Match, pni: Option<string>, freshId: Id): (Book, Id) {
    if p.target.Some? then (p.book, p.target.value)
    else if CanHost(At(p.book, found), u.slot, pni) then (p.book, found)
    else GetOrCreate(p.book, if u.value.Some? then u.value.value else "", Keep, Keep, freshId)
  }

  function ResolveUnused(p: Progress, found: Id, pni: Option<string>, freshId: Id, unused: seq<Match>): Progress
    decreases |unused|
  {
    if unused == [] then p
    else
      var u := unused[0];
      var (book, target) := Host(p, found, u, pni, freshId);
      ResolveUnused(
        p.(book := ApplyChange(book, target, JustPut(u.slot, u.value)), target := Some(target)),
        found, pni, freshId, unused[1..])
  }

  /** The change that takes a matched identifier away from a conversation that is not the target. */
  function Clearing(c: Contact, slot: MergeSlot, pni: Option<string>): Change {
    var change := JustPut(slot, None);
    if slot != ServiceIdSlot && c.serviceId == pni then change.(serviceId := Put(None)) else change
  }

  /** The identifier moves from `found` to the target; a conversation left bare is merged into it. */
  function MoveIdentifier(p: Progress, target: Id, m: Match, found: Id, pni: Option<string>): Progress {
    var cleared := ApplyChange(p.book, found, Clearing(At(p.book, found), m.slot, pni));
    var willMerge := At(cleared, found).Bare();
    p.(book := ApplyChange(cleared, target, JustPut(m.slot, m.value)),
       merges := if willMerge then p.merges + [Merge(target, found)] else p.merges)
  }

  /** One round of the `matches.forEach` loop. */
  function ProcessMatch(p: Progress, m: Match, pni: Option<string>, freshId: Id): Progress {
    if m.value.None? then p
    else if m.found.None? then
      if p.target.Some? then p.(book := ApplyChange(p.book, p.target.value, JustPut(m.slot, m.value)))
      else p.(unused := p.unused + [m])
    else
      var found := m.found.value;
      var p := ResolveUnused(p, found, pni, freshId, p.unused).(unused := []);
      if p.target.None? then p.(target := Some(found))
      else if p.target.value != found then MoveIdentifier(p, p.target.value, m, found, pni)
      else if At(p.book, found).Get(m.slot).None? then
        p.(book := ApplyChange(p.book, found, JustPut(m.slot, m.value)))
      else p
  }

  /** The whole loop. */
  function Rounds(p: Progress, ms: seq<Match>, pni: Option<string>, freshId: Id): Progress
    decreases |ms|
  {
    if ms == [] then p else Rounds(ProcessMatch(p, ms[0], pni, freshId), ms[1..], pni, freshId)
  }

  lemma ThreeRounds(p: Progress, ms: seq<Match>, pni: Option<string>, freshId: Id)
    requires |ms| == 3
    ensures Rounds(p, ms, pni, freshId)
            == ProcessMatch(
                 ProcessMatch(ProcessMatch(p, ms[0], pni, freshId), ms[1], pni, freshId), ms[2], pni, freshId)
  {
    var p1 := ProcessMatch(p, ms[0], pni, freshId);
    var p2 := ProcessMatch(p1, ms[1], pni, freshId);
    var p3 := ProcessMatch(p2, ms[2], pni, freshId);
    assert ms[1..] == [ms[1], ms[2]] && [ms[1], ms[2]][1..] == [ms[2]] && [ms[2]][1..] == [];
    assert Rounds(p3, [], pni, freshId) == p3;
    assert Rounds(p2, [ms[2]], pni, freshId) == p3;
    assert Rounds(p1, [ms[1], ms[2]], pni, freshId) == p3;
  }

  function Matches(b: Book, aci: Option<string>, e164: Option<string>, pni: Option<string>): seq<Match> {
    [ Match(ServiceIdSlot, aci, Lookup(b, aci)),
      Match(E164Slot, e164, Lookup(b, e164)),
      Match(PniSlot, pni, Lookup(b, pni)) ]
  }

  datatype MergeResult =
    | Rejected
    | Merged(book: Book, conversation: Id, merges: seq<Merge>)

  /** The two checks before any lookup: something must be supplied, and `normalizeAci` throws for a PNI. */
  predicate Admitted(aci: Option<string>, e164: Option<string>, pni: Option<string>) {
    (aci.Some? || e164.Some? || pni.Some?) && !(aci.Some? && IsPniString(aci.value))
  }

  /** `maybeMergeContacts`; it throws before it has changed anything. */
  function MaybeMergeContacts(
    b: Book, aci: Option<string>, e164: Option<string>, pni: Option<string>, freshId: Id): MergeResult
  {
    if !Admitted(aci, e164, pni) then Rejected
    else
      AfterRounds(
        Rounds(Progress(b, None, [], []), Matches(b, aci, e164, pni), pni, freshId), aci, e164, pni, freshId)
  }

  /** Without any match a conversation is made for all that was supplied. */
  function AfterRounds(
    p: Progress, aci: Option<string>, e164: Option<string>, pni: Option<string>, freshId: Id): MergeResult
    requires Admitted(aci, e164, pni)
  {
    if p.target.Some? then Merged(p.book, p.target.value, p.merges)
    else
      var identifier := if aci.Some? then aci.value else if pni.Some? then pni.value else e164.value;
      var (book, id) := GetOrCreate(p.book, identifier, Put(e164), Put(pni), freshId);
      Merged(book, id, p.merges)
  }
}
