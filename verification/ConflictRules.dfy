/**
 What the conflict check of the conversation controller does, over ids: conversations are
 visited in turn, and of two that share an identifier one is combined into the other.
 */
module ConflictRules {
  import opened Wrappers
  import opened Lists
  import opened ContactBook
  import opened ContactMerge

  type Kinds = map<Id, Kind>

  /**
   The conversations left, every attribute (also of removed ones), the merges, who lost its phone
   number while it was listed, and the check's own tables.
   */
  datatype State = State(
    list: seq<Id>,
    contacts: map<Id, Contact>,
    merges: seq<Merge>,
    stale: set<Id>,
    byServiceId: map<string, Id>,
    byE164: map<string, Id>,
    byGroupV2Id: map<string, Id>)

  function GroupV2IdOf(kind: Kind, c: Contact): Option<string> {
    match kind
    case Direct => None
    case GroupV1(derived) => Some(derived)
    case GroupV2 => c.groupId
  }

  /** `#doCombineConversations`: nothing happens a second time, or between a contact and a group. */
  function Combine(st: State, kinds: Kinds, current: Id, obsolete: Id): State
    requires current in kinds && obsolete in kinds
  {
    if obsolete !in st.list || kinds[obsolete].Direct? != kinds[current].Direct? then st
    else st.(list := Without(st.list, obsolete), merges := st.merges + [Merge(current, obsolete)])
  }

  /** What the tables of the check hold is known. */
  predicate Known(st: State, kinds: Kinds) {
    && st.contacts.Keys == kinds.Keys
    && (forall v :: v in st.byServiceId ==> st.byServiceId[v] in kinds)
    && (forall v :: v in st.byE164 ==> st.byE164[v] in kinds)
    && (forall v :: v in st.byGroupV2Id ==> st.byGroupV2Id[v] in kinds)
  }

  function CheckServiceId(st: State, kinds: Kinds, c: Id): (r: State)
    requires Known(st, kinds) && c in kinds
    ensures Known(r, kinds)
  {
    if st.contacts[c].serviceId.None? then st
    else
      var v := st.contacts[c].serviceId.value;
      if v !in st.byServiceId then st.(byServiceId := st.byServiceId[v := c])
      else if st.contacts[c].e164.Some? then
        Combine(st, kinds, c, st.byServiceId[v]).(byServiceId := st.byServiceId[v := c])
      else Combine(st, kinds, st.byServiceId[v], c)
  }

  function CheckPni(st: State, kinds: Kinds, c: Id): (r: State)
    requires Known(st, kinds) && c in kinds
    ensures Known(r, kinds)
  {
    if st.contacts[c].pni.None? then st
    else
      var v := st.contacts[c].pni.value;
      if v !in st.byServiceId then st.(byServiceId := st.byServiceId[v := c])
      else if st.byServiceId[v] == c then st
      else Combine(st, kinds, c, st.byServiceId[v]).(byServiceId := st.byServiceId[v := c])
  }

  /** Two contacts with one phone number but different service ids. */
  predicate DifferentServiceIds(st: State, c: Id, d: Id)
    requires c in st.contacts && d in st.contacts
  {
    && st.contacts[c].serviceId.Some? && st.contacts[d].serviceId.Some?
    && st.contacts[c].serviceId != st.contacts[d].serviceId
  }

  function CheckE164(st: State, kinds: Kinds, c: Id): (r: State)
    requires Known(st, kinds) && c in kinds
    ensures Known(r, kinds)
  {
    if st.contacts[c].e164.None? then st
    else
      var e := st.contacts[c].e164.value;
      if e !in st.byE164 then st.(byE164 := st.byE164[e := c])
      else
        var d := st.byE164[e];
        if DifferentServiceIds(st, c, d) then
          st.(contacts := st.contacts[d := st.contacts[d].(e164 := None)],
              stale := if d in st.list then st.stale + {d} else st.stale,
              byE164 := st.byE164[e := c])
        else if st.contacts[c].serviceId.Some? then
          Combine(st, kinds, c, d).(byE164 := st.byE164[e := c])
        else Combine(st, kinds, d, c)
  }

  /** The loop goes on with the next conversation once it dropped a phone number. */
  predicate Dropping(st: State, c: Id)
    requires c in st.contacts && (forall v :: v in st.byE164 ==> st.byE164[v] in st.contacts)
  {
    var e := st.contacts[c].e164;
    e.Some? && e.value in st.byE164 && DifferentServiceIds(st, c, st.byE164[e.value])
  }

  function CheckGroup(st: State, kinds: Kinds, c: Id): (r: State)
    requires Known(st, kinds) && c in kinds
    ensures Known(r, kinds)
  {
    var g := GroupV2IdOf(kinds[c], st.contacts[c]);
    if g.None? then st
    else if g.value !in st.byGroupV2Id then st.(byGroupV2Id := st.byGroupV2Id[g.value := c])
    else
      var d := st.byGroupV2Id[g.value];
      if kinds[c].GroupV2? && !kinds[d].GroupV2? then
        Combine(st, kinds, c, d).(byGroupV2Id := st.byGroupV2Id[g.value := c])
      else Combine(st, kinds, d, c)
  }

  /** One round of the loop. */
  function Visit(st: State, kinds: Kinds, c: Id): (r: State)
    requires Known(st, kinds) && c in kinds
    ensures Known(r, kinds)
  {
    var st := CheckPni(CheckServiceId(st, kinds, c), kinds, c);
    if Dropping(st, c) then CheckE164(st, kinds, c) else CheckGroup(CheckE164(st, kinds, c), kinds, c)
  }

  /** The conversations of `list` visited one after the other, from its end to its front. */
  function Visits(st: State, kinds: Kinds, list: seq<Id>): (r: State)
    requires Known(st, kinds) && forall c <- list :: c in kinds
    ensures Known(r, kinds)
  {
    if list == [] then st else Visit(Visits(st, kinds, list[1..]), kinds, list[0])
  }

  function Initial(list: seq<Id>, contacts: map<Id, Contact>): State {
    State(list, contacts, [], {}, map[], map[], map[])
  }

  /** `#doCheckForConflicts`. */
  function Check(list: seq<Id>, kinds: Kinds, contacts: map<Id, Contact>): (r: State)
    requires contacts.Keys == kinds.Keys && forall c <- list :: c in kinds
    ensures Known(r, kinds)
  {
    Visits(Initial(list, contacts), kinds, list)
  }
}
