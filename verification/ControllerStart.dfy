/** Loading the conversations and checking them, as the controller does it; proved against `StartUp.Started`. */
module ControllerStart {
  import opened Wrappers
  import opened Lists
  import opened ContactBook
  import opened ContactMerge
  import opened ConversationController
  import opened ConflictTables
  import opened ConflictCheck
  import opened StartUp
  import ConflictRules
  import ConflictProofs
  import ConflictResult

  /** `#generateLookups`: the tables are filled in the order of the list. */
  method GenerateLookups(ctl: Controller)
    requires Listed(ctl.conversations, ctl.byId)
    requires ctl.byServiceId == ctl.byE164 == ctl.byPni == ctl.byGroupId == map[]
    modifies ctl`byServiceId, ctl`byE164, ctl`byPni, ctl`byGroupId
    ensures ctl.Wired() && ctl.Snapshot() == Loaded(IdList(ctl.conversations), old(Records(ctl.byId)))
  {
    ghost var list, contacts := IdList(ctl.conversations), Records(ctl.byId);
    assert ctl.Snapshot() == Loaded(list[..0], contacts);
    for i := 0 to |ctl.conversations|
      invariant ctl.Wired() && Records(ctl.byId) == contacts && ctl.Snapshot() == Loaded(list[..i], contacts)
    {
      var c := ctl.conversations[i];
      ListedIds(ctl.conversations, ctl.byId);
      LoadedNext(list, contacts, i);
      ctl.AddToLookup(c);
    }
    assert list[..|ctl.conversations|] == list;
  }

  lemma LoadedNext(list: seq<Id>, contacts: map<Id, Contact>, i: nat)
    requires i < |list| && forall c <- list :: c in contacts
    ensures Loaded(list[..i + 1], contacts) == AddConversation(Loaded(list[..i], contacts), list[i], contacts[list[i]])
  {
    assert list[..i + 1][..i] == list[..i];
  }

  /** The part of loading that clears phone numbers that are none; the tables are not told. */
  method ClearMisfiled(ctl: Controller)
    requires Listed(ctl.conversations, ctl.byId)
    modifies ctl.byId.Values`e164
    ensures Records(ctl.byId) == Cleaned(old(Records(ctl.byId)))
  {
    for i := 0 to |ctl.conversations|
      invariant forall j :: 0 <= j < i ==>
          ctl.conversations[j].Attributes() == Clear(old(ctl.conversations[j].Attributes()))
      invariant forall j :: i <= j < |ctl.conversations| ==>
                  ctl.conversations[j].Attributes() == old(ctl.conversations[j].Attributes())
    {
      var c := ctl.conversations[i];
      if c.e164.Some? && IsServiceIdString(c.e164.value) && c.serviceId.Some? { c.e164 := None; }
    }
    forall k | k in ctl.byId
      ensures ctl.byId[k].Attributes() == Clear(old(ctl.byId[k].Attributes()))
    {
      var j :| 0 <= j < |ctl.conversations| && ctl.conversations[j] == ctl.byId[k];
    }
  }

  /** No local id is an identifier of a conversation. */
  predicate IdsApart(contacts: map<Id, Contact>) {
    forall k :: k in contacts ==>
      k != ""
      && forall d, slot: Slot :: d in contacts ==>
           contacts[d].Get(slot) != Some(k) && contacts[d].Get(slot) != Some("+" + k)
  }

  lemma KeysApart(byId: Table, t: Table, slot: Slot)
    requires Backed(byId, t, slot) && IdsApart(Records(byId))
    ensures forall k :: k in byId ==> k !in t && "+" + k !in t
  {
    forall k, v | k in byId && v in t
      ensures v != k && v != "+" + k
    {
      var d := t[v].id;
      assert k in Records(byId) && d in Records(byId) && Records(byId)[d].Get(slot) == Some(v);
    }
  }

  lemma WiredFits(ctl: Controller)
    requires ctl.Wired() && IdsApart(Records(ctl.byId))
    ensures Fits(ctl, ctl.byId)
  {
    KeysApart(ctl.byId, ctl.byServiceId, ServiceIdSlot);
    KeysApart(ctl.byId, ctl.byE164, E164Slot);
    KeysApart(ctl.byId, ctl.byPni, PniSlot);
    KeysApart(ctl.byId, ctl.byGroupId, GroupIdSlot);
    assert Records(ctl.byId).Keys == ctl.byId.Keys;
  }

  lemma AllListed(ctl: Controller)
    requires Listed(ctl.conversations, ctl.byId) && ConflictProofs.OnlyDirect(KindsOf(ctl.byId), Records(ctl.byId))
    ensures
      var list, kinds, contacts := IdList(ctl.conversations), KindsOf(ctl.byId), Records(ctl.byId);
      ConflictResult.Checkable(list, kinds, contacts) && forall x :: x in contacts ==> x in list
  {
    ListedIds(ctl.conversations, ctl.byId);
    forall x | x in ctl.byId
      ensures x in IdList(ctl.conversations)
    {
      InIdList(ctl.conversations, ctl.byId[x]);
    }
  }

  lemma CleanedNumbers(list: seq<Id>, contacts: map<Id, Contact>)
    requires forall d <- list :: d in contacts
    ensures NumbersKept(contacts, LoadedState(list, contacts))
  {}

  /** The state from which the check starts. */
  function LoadedState(list: seq<Id>, contacts: map<Id, Contact>): ConflictRules.State {
    WithGone(ConflictRules.Initial(list, Cleaned(contacts)), MisfiledIds(contacts))
  }

  lemma CleanedDirect(kinds: ConflictRules.Kinds, contacts: map<Id, Contact>)
    requires ConflictProofs.OnlyDirect(kinds, contacts)
    ensures ConflictProofs.OnlyDirect(kinds, Cleaned(contacts))
  {}

  /** Clearing numbers leaves the tables filed as they were. */
  lemma ClearedTables(ctl: Controller, all: Table, b: Book, list: seq<Id>, gone: set<Id>)
    requires TablesLeft(ctl, all, b, list, {}) && FiledUnder(b.byE164, b.contacts, E164Slot)
    requires forall x :: x in b.contacts ==> x in list
    ensures TablesLeft(ctl, all, b, list, gone)
  {
    assert PhonesLeft(b.byE164, list, {}) == PhonesLeft(b.byE164, list, gone);
  }

  lemma LoadedAgrees(ctl: Controller, b: Book)
    requires Fits(ctl, ctl.byId) && AllFiled(b) && Records(ctl.byId) == Cleaned(b.contacts)
    requires TablesLeft(ctl, ctl.byId, b, IdList(ctl.conversations), {})
    requires forall x :: x in b.contacts <==> x in IdList(ctl.conversations)
    ensures Agrees(ctl, ctl.byId, Some(b), LoadedState(IdList(ctl.conversations), b.contacts))
  {
    var list := IdList(ctl.conversations);
    ClearedTables(ctl, ctl.byId, b, list, MisfiledIds(b.contacts));
    CleanedNumbers(list, b.contacts);
  }

  /** The numbers are cleared under the tables as they were filled. */
  method ClearUnder(ctl: Controller, ghost b: Book)
    requires Fits(ctl, ctl.byId) && AllFiled(b) && Records(ctl.byId) == b.contacts
    requires TablesLeft(ctl, ctl.byId, b, IdList(ctl.conversations), {})
    requires forall x :: x in b.contacts <==> x in IdList(ctl.conversations)
    modifies ctl.byId.Values`e164
    ensures Agrees(ctl, ctl.byId, Some(b), LoadedState(IdList(ctl.conversations), b.contacts))
  {
    ClearMisfiled(ctl);
    LoadedAgrees(ctl, b);
  }

  /** `#doLoad` from the moment when the conversations are there. */
  method Load(ctl: Controller)
    requires Listed(ctl.conversations, ctl.byId)
    requires ctl.byServiceId == ctl.byE164 == ctl.byPni == ctl.byGroupId == map[]
    requires ConflictProofs.OnlyDirect(KindsOf(ctl.byId), Records(ctl.byId)) && IdsApart(Records(ctl.byId))
    modifies ctl`byServiceId, ctl`byE164, ctl`byPni, ctl`byGroupId, ctl.byId.Values`e164
    ensures Fits(ctl, ctl.byId) && Records(ctl.byId) == Cleaned(old(Records(ctl.byId)))
    ensures
      var list, contacts := IdList(ctl.conversations), old(Records(ctl.byId));
      && (forall c <- list :: c in contacts)
      && Agrees(ctl, ctl.byId, Some(Loaded(list, contacts)), LoadedState(list, contacts))
  {
    ghost var list, contacts := IdList(ctl.conversations), Records(ctl.byId);
    ghost var b := Loaded(list, contacts);
    AllListed(ctl);
    LoadedContacts(list, contacts);
    GenerateLookups(ctl);
    FilledFits(ctl, b);
    ClearUnder(ctl, b);
  }

  lemma FilledFits(ctl: Controller, b: Book)
    requires ctl.Wired() && ctl.Snapshot() == b && IdsApart(Records(ctl.byId))
    ensures Fits(ctl, ctl.byId) && AllFiled(b) && TablesLeft(ctl, ctl.byId, b, IdList(ctl.conversations), {})
  {
    WiredFits(ctl);
    WiredAtStart(ctl);
  }

  /**
   Loading and the first check: the store is the one specified, its entries sound exactly if no number was
   cleared.
   */
  method Start(ctl: Controller) returns (merges: seq<Merge>)
    requires Listed(ctl.conversations, ctl.byId)
    requires ctl.byServiceId == ctl.byE164 == ctl.byPni == ctl.byGroupId == map[]
    requires ConflictProofs.OnlyDirect(KindsOf(ctl.byId), Records(ctl.byId)) && IdsApart(Records(ctl.byId))
    modifies ctl, ctl.byId.Values`e164
    ensures
      var list, kinds, contacts := old(IdList(ctl.conversations)), KindsOf(old(ctl.byId)), old(Records(ctl.byId));
      && ConflictResult.Checkable(list, kinds, contacts)
      && ctl.Snapshot() == Started(list, kinds, contacts)
      && IdList(ctl.conversations) == ConflictRules.Check(list, kinds, Cleaned(contacts)).list
      && merges == ConflictRules.Check(list, kinds, Cleaned(contacts)).merges
      && (ctl.Wired() <==> forall c <- list :: !Misfiled(contacts[c]))
  {
    ghost var list, kinds, contacts := IdList(ctl.conversations), KindsOf(ctl.byId), Records(ctl.byId);
    AllListed(ctl);
    Load(ctl);
    CleanedDirect(kinds, contacts);
    NumbersSoundIff(list, kinds, contacts);
    ghost var visited;
    merges, visited := CheckFrom(ctl, Some(Loaded(list, contacts)), MisfiledIds(contacts));
  }
}
