/**
 Whole runs of `maybeMergeContacts`, and the two concrete calls after which an
 identifier that was supplied belongs to nobody.
 */
module ContactMergeRuns {
  import opened Wrappers
  import opened ContactBook
  import opened ContactMerge
  import opened ContactMergeProofs
  import opened ContactMergeChoice

  /** Whatever matched may lose identifiers, what did not match is as before, and merges name bare conversations. */
  lemma MergeTouchesOnlyMatches(
    b: Book, aci: Option<string>, e164: Option<string>, pni: Option<string>, freshId: Id, id: Id)
    requires Valid(b) && Supplied(b, aci, e164, pni, freshId) && Admitted(aci, e164, pni)
    ensures
      var r := MaybeMergeContacts(b, aci, e164, pni, freshId);
      && r.Merged? && r.book.contacts.Keys == b.contacts.Keys + {r.conversation}
      && (id in b.contacts && id != r.conversation ==>
            && OnlyLoses(b.contacts[id], r.book.contacts[id], pni)
            && (Some(id) !in {Lookup(b, aci), Lookup(b, e164), Lookup(b, pni)} ==>
                 r.book.contacts[id] == b.contacts[id]))
      && (Merge(r.conversation, id) in r.merges <==>
            && id != r.conversation && id in r.book.contacts
            && r.book.contacts[id].serviceId.None? && r.book.contacts[id].e164.None? && r.book.contacts[id].pni.None?
            && Some(id) in {Lookup(b, aci), Lookup(b, e164), Lookup(b, pni)})
      && (forall g :: g in r.merges ==> g.current == r.conversation)
  {
    MergeOutcome(b, aci, e164, pni, freshId);
    OutcomeTouches(b, Matches(b, aci, e164, pni), freshId, Final(b, aci, e164, pni, freshId), id);
  }

  lemma OutcomeTouches(b: Book, ms: seq<Match>, freshId: Id, p: Progress, id: Id)
    requires |ms| == 3 && Outcome(b, ms, freshId, p)
    ensures
      var r, cs := p.target.value, p.book.contacts;
      && (id in b.contacts && id != r ==>
            && id in cs && OnlyLoses(b.contacts[id], cs[id], ms[2].value)
            && (Untouched(ms, id) ==> cs[id] == b.contacts[id]))
      && (Merge(r, id) in p.merges <==> id != r && id in cs && cs[id].Bare() && !Untouched(ms, id))
  {}

  // ---------------------------------------------------------------- regular stores

  /**
   The pni slot holds only PNIs; a PNI in the serviceId slot is there too, or is all there is, as
   `getOrCreate` leaves it.
   */
  predicate Regular(c: Contact) {
    && (c.pni.Some? ==> IsPniString(c.pni.value))
    && (c.serviceId.Some? && IsPniString(c.serviceId.value) ==> c.pni == c.serviceId || (c.pni.None? && c.e164.None?))
  }

  /** And not the latter. */
  predicate Firm(c: Contact) {
    && (c.pni.Some? ==> IsPniString(c.pni.value))
    && (c.serviceId.Some? && IsPniString(c.serviceId.value) ==> c.pni == c.serviceId)
  }

  ghost predicate AllRegular(cs: map<Id, Contact>) { forall id :: id in cs ==> Regular(cs[id]) }

  /** An identifier of the kind its slot is for. */
  predicate ProperValue(slot: MergeSlot, value: Option<string>) {
    value.Some? ==>
      match slot
      case ServiceIdSlot => IsUuid(value.value)
      case E164Slot => IsE164(value.value)
      case PniSlot => IsPniString(value.value)
  }

  ghost predicate Proper(ms: seq<Match>) { |ms| == 3 && forall m <- ms :: ProperValue(m.slot, m.value) }

  lemma UuidIsNoPni(s: string)
    requires IsUuid(s)
    ensures !IsPniString(s) && IsServiceIdString(s)
  {
    assert IsHexDigit(s[0]);
  }

  lemma EditsKeepFirm(c: Contact, slot: MergeSlot, value: Option<string>)
    requires Firm(c) && value.Some? && ProperValue(slot, value)
    ensures Firm(Edited(c, JustPut(slot, value)))
  {
    match slot
    case ServiceIdSlot => EditedServiceId(c, value.value); UuidIsNoPni(value.value);
    case E164Slot => EditedE164(c, value.value);
    case PniSlot => EditedPni(c, value.value);
  }

  /** A contact that was matched by phone number or PNI is firm once that was taken away. */
  lemma ClearedIsFirm(c: Contact, slot: MergeSlot, v: string, pni: Option<string>)
    requires Regular(c) && HeldBy(c, slot, v) && (slot == E164Slot || (slot == PniSlot && pni == Some(v)))
    ensures Firm(Cleared(c, slot, pni))
  {
    if slot == E164Slot { ClearedE164(c, pni); } else { ClearedPni(c, pni); }
  }

  /** Contacts found by ACI or phone number are firm. */
  lemma MatchIsFirm(c: Contact, slot: MergeSlot, v: string)
    requires Regular(c) && HeldBy(c, slot, v) && (slot == E164Slot || (slot == ServiceIdSlot && IsUuid(v)))
    ensures Firm(c)
  {
    if slot == ServiceIdSlot { UuidIsNoPni(v); }
  }

  lemma TargetIsFirm(b: Book, ms: seq<Match>, freshId: Id, t: Id, c: Contact)
    requires Matched(b, ms) && freshId !in b.contacts && AllRegular(b.contacts) && Proper(ms)
    requires (ms[0].found.Some? || ms[1].found.Some?) && TargetRecord(b, ms, freshId, t, c)
    ensures Firm(c)
  {
    assert MatchOf(b.contacts, ms[0]) && MatchOf(b.contacts, ms[1]);
    assert ProperValue(ms[0].slot, ms[0].value) && ProperValue(ms[1].slot, ms[1].value);
    if ms[0].value.Some? { UuidIsNoPni(ms[0].value.value); }
    if ms[0].found.Some? {
      MatchIsFirm(b.contacts[t], ServiceIdSlot, ms[0].value.value);
      if ms[1].value.Some? { EditsKeepFirm(b.contacts[t], E164Slot, ms[1].value); }
    } else if ms[1].found == Some(t) {
      MatchIsFirm(b.contacts[t], E164Slot, ms[1].value.value);
    }
  }

  /** With a target after two rounds, everybody is regular and the target is firm. */
  lemma KnownIsRegular(b: Book, ms: seq<Match>, freshId: Id, p: Progress, t: Id)
    requires Matched(b, ms) && freshId !in b.contacts && AllRegular(b.contacts) && Proper(ms)
    requires (ms[0].found.Some? || ms[1].found.Some?) && TargetKnown(b, ms, freshId, p, t)
    ensures AllRegular(p.book.contacts) && Firm(p.book.contacts[t])
  {
    TargetIsFirm(b, ms, freshId, t, p.book.contacts[t]);
    if ms[1].found.Some? && ms[1].found.value != t {
      assert MatchOf(b.contacts, ms[1]);
      ClearedIsFirm(b.contacts[ms[1].found.value], E164Slot, ms[1].value.value, ms[2].value);
    }
  }

  /** What the last round can do to the records, once there is a target `t`. */
  ghost predicate LastWrites(
    cs: map<Id, Contact>, now: map<Id, Contact>, t: Id, found: Option<Id>, pni: Option<string>)
  {
    && t in cs
    && (now == cs || now == cs[t := Edited(cs[t], JustPut(PniSlot, pni))]
        || (found.Some? && found.value in cs
            && now == cs[found.value := Cleared(cs[found.value], PniSlot, pni)]
                      [t := Edited(cs[t], JustPut(PniSlot, pni))]))
  }

  lemma LastWritesRegular(cs: map<Id, Contact>, now: map<Id, Contact>, t: Id, found: Option<Id>, pni: Option<string>)
    requires AllRegular(cs) && LastWrites(cs, now, t, found, pni) && Firm(cs[t]) && pni.Some?
    requires ProperValue(PniSlot, pni)
    ensures AllRegular(now)
  {
    EditsKeepFirm(cs[t], PniSlot, pni);
    if found.Some? && found.value in cs { PniClearedIsRegular(cs[found.value], pni); }
  }

  lemma TargetRoundRegular(b: Book, ms: seq<Match>, freshId: Id, p: Progress, t: Id)
    requires Start(b, ms, freshId) && TargetKnown(b, ms, freshId, p, t) && ProperValue(PniSlot, ms[2].value)
    requires AllRegular(p.book.contacts) && Firm(p.book.contacts[t])
    ensures AllRegular(LastRound(p, ms, freshId).book.contacts)
  {
    if ms[2].value.Some? {
      if ms[2].found.None? || ms[2].found == Some(t) {
        OwnRoundAssigns(b, ms, freshId, p, t);
      } else {
        OtherRoundMoves(b, ms, freshId, p, t);
      }
      LastWritesRegular(p.book.contacts, LastRound(p, ms, freshId).book.contacts, t, ms[2].found, ms[2].value);
    }
  }

  lemma OwnRoundAssigns(b: Book, ms: seq<Match>, freshId: Id, p: Progress, t: Id)
    requires Start(b, ms, freshId) && TargetKnown(b, ms, freshId, p, t) && ms[2].value.Some?
    requires ms[2].found.None? || ms[2].found == Some(t)
    ensures
      var cs, now := p.book.contacts, LastRound(p, ms, freshId).book.contacts;
      now == cs || now == cs[t := Edited(cs[t], JustPut(PniSlot, ms[2].value))]
  {
    PniRound(p, ms, freshId, t);
    PniAssigned(b, ms, freshId, p, t);
  }

  lemma OtherRoundMoves(b: Book, ms: seq<Match>, freshId: Id, p: Progress, t: Id)
    requires Start(b, ms, freshId) && TargetKnown(b, ms, freshId, p, t) && ms[2].value.Some?
    requires ms[2].found.Some? && ms[2].found.value != t
    ensures
      var found, cs := ms[2].found.value, p.book.contacts;
      && found in cs
      && LastRound(p, ms, freshId).book.contacts
         == cs[found := Cleared(cs[found], PniSlot, ms[2].value)][t := Edited(cs[t], JustPut(PniSlot, ms[2].value))]
  {
    assert MatchOf(b.contacts, ms[2]) && TypedValue(PniSlot, ms[2].value);
    KnownKeepsOthers(b, ms, p, t);
    PniStillWithMatch(b, ms, p.book.contacts, t);
    MoveSpec(p, t, ms[2], ms[2].found.value, ms[2].value);
  }

  lemma PniClearedIsRegular(c: Contact, pni: Option<string>)
    requires Regular(c)
    ensures Regular(Cleared(c, PniSlot, pni))
  {
    ClearedPni(c, pni);
  }

  /** A host of the PNI that was all PNI gets it back in both slots. */
  lemma HostedIsFirm(c: Contact, ms: seq<Match>)
    requires Regular(c) && Proper(ms) && ms[0].slot == ServiceIdSlot && ms[1].slot == E164Slot && ms[2].slot == PniSlot
    requires ms[2].value.Some? && c.Holds(ms[2].value.value) && (ms[0].value.Some? || ms[1].value.Some?)
    ensures Firm(HostedRecord(c, ms))
  {
    assert ProperValue(ms[0].slot, ms[0].value) && ProperValue(ms[1].slot, ms[1].value)
      && ProperValue(ms[2].slot, ms[2].value);
    if ms[0].value.Some? { EditedServiceId(c, ms[0].value.value); UuidIsNoPni(ms[0].value.value); }
    var d := if ms[0].value.Some? then Edited(c, JustPut(ServiceIdSlot, ms[0].value)) else c;
    if ms[1].value.Some? { EditedE164(d, ms[1].value.value); }
    EditedPni(WithUnused(c, ms), ms[2].value.value);
  }

  lemma PniRoundRegular(b: Book, ms: seq<Match>, freshId: Id, p: Progress)
    requires Start(b, ms, freshId) && AllRegular(b.contacts) && Proper(ms) && NoTargetYet(b, ms, p) && ms[2].found.Some?
    ensures AllRegular(LastRound(p, ms, freshId).book.contacts)
  {
    var found := ms[2].found.value;
    var slot: MergeSlot := if ms[0].value.Some? then ServiceIdSlot else E164Slot;
    assert MatchOf(b.contacts, ms[2]) && TypedValue(PniSlot, ms[2].value);
    if (ms[0].value.Some? || ms[1].value.Some?) && !CanHost(b.contacts[found], slot, ms[2].value) {
      var book := HostedByNew(b, ms, freshId, p, found);
      NewHostStays(b, ms, freshId, book.contacts);
      MoveToNew(b.contacts, book, freshId, ms[2], found);
      MovedToNewRegular(b.contacts, book.contacts, ms, freshId, found);
    } else {
      HostedByMatch(b, ms, freshId, p, found);
      if ms[0].value.Some? || ms[1].value.Some? { HostedIsFirm(b.contacts[found], ms); }
    }
  }

  lemma MovedToNewRegular(cs: map<Id, Contact>, created: map<Id, Contact>, ms: seq<Match>, freshId: Id, found: Id)
    requires AllRegular(cs) && Proper(ms) && ms[0].slot == ServiceIdSlot && ms[1].slot == E164Slot
    requires ms[2].slot == PniSlot
    requires ms[2].value.Some? && found in cs && created == cs[freshId := Contact(ms[0].value, ms[1].value, None, None)]
    ensures
      var c := Contact(ms[0].value, ms[1].value, None, None);
      AllRegular(created[found := Cleared(cs[found], PniSlot, ms[2].value)]
                 [freshId := Edited(c, JustPut(PniSlot, ms[2].value))])
  {
    PniClearedIsRegular(cs[found], ms[2].value);
    NewIsFirm(ms);
  }

  lemma NewIsFirm(ms: seq<Match>)
    requires Proper(ms) && ms[0].slot == ServiceIdSlot && ms[1].slot == E164Slot && ms[2].slot == PniSlot
    requires ms[2].value.Some?
    ensures Firm(Edited(Contact(ms[0].value, ms[1].value, None, None), JustPut(PniSlot, ms[2].value)))
  {
    assert ProperValue(ms[0].slot, ms[0].value) && ProperValue(ms[2].slot, ms[2].value);
    if ms[0].value.Some? { UuidIsNoPni(ms[0].value.value); }
    EditedPni(Contact(ms[0].value, ms[1].value, None, None), ms[2].value.value);
  }

  lemma BornRegular(b: Book, ms: seq<Match>, freshId: Id, identifier: string)
    requires Start(b, ms, freshId) && AllRegular(b.contacts) && Proper(ms)
    requires ms[0].found.None? && ms[1].found.None? && ms[2].found.None?
    requires Some(identifier)
             == if ms[0].value.Some? then ms[0].value else if ms[2].value.Some? then ms[2].value else ms[1].value
    ensures AllRegular(GetOrCreate(b, identifier, Put(ms[1].value), Put(ms[2].value), freshId).0.contacts)
  {
    assert ProperValue(ms[0].slot, ms[0].value) && ProperValue(ms[2].slot, ms[2].value);
    if ms[0].value.Some? { UuidIsNoPni(ms[0].value.value); }
    BornRecord(ms, identifier);
  }

  lemma RoundsRegular(b: Book, ms: seq<Match>, freshId: Id)
    requires Start(b, ms, freshId) && (ms[0].found.Some? || ms[1].found.Some? || ms[2].found.Some?)
    requires AllRegular(b.contacts) && Proper(ms)
    ensures
      var q := LastRound(FirstTwo(b, ms, freshId), ms, freshId);
      q.target.Some? && AllRegular(q.book.contacts)
  {
    var p := FirstTwo(b, ms, freshId);
    LastRoundOutcome(b, ms, freshId);
    AfterFirstTwo(b, ms, freshId);
    if ms[0].found.Some? || ms[1].found.Some? {
      KnownIsRegular(b, ms, freshId, p, p.target.value);
      TargetRoundRegular(b, ms, freshId, p, p.target.value);
    } else {
      PniRoundRegular(b, ms, freshId, p);
    }
  }

  /** Merging by ACI, phone number and PNI keeps a regular store regular. */
  lemma MergeKeepsRegular(b: Book, aci: Option<string>, e164: Option<string>, pni: Option<string>, freshId: Id)
    requires Valid(b) && AllRegular(b.contacts) && Supplied(b, aci, e164, pni, freshId) && Admitted(aci, e164, pni)
    requires ProperValue(ServiceIdSlot, aci) && ProperValue(E164Slot, e164) && ProperValue(PniSlot, pni)
    ensures AllRegular(MaybeMergeContacts(b, aci, e164, pni, freshId).book.contacts)
  {
    var ms := Matches(b, aci, e164, pni);
    LookupMatch(b, ServiceIdSlot, aci);
    LookupMatch(b, E164Slot, e164);
    LookupMatch(b, PniSlot, pni);
    assert Start(b, ms, freshId);
    ThreeRounds(Progress(b, None, [], []), ms, pni, freshId);
    if ms[0].found.Some? || ms[1].found.Some? || ms[2].found.Some? {
      RoundsRegular(b, ms, freshId);
    } else {
      NoMatchNoTarget(b, ms, freshId);
      BornRegular(b, ms, freshId, if aci.Some? then aci.value else if pni.Some? then pni.value else e164.value);
    }
  }

  /** Where the pni slots hold nothing but PNIs no ACI is ever lost. */
  lemma PniSlotsKeepAcis(b: Book, aci: Option<string>, e164: Option<string>, pni: Option<string>)
    requires Valid(b)
    requires forall id :: id in b.contacts && b.contacts[id].pni.Some? ==> IsPniString(b.contacts[id].pni.value)
    requires Admitted(aci, e164, pni) && TypedValue(ServiceIdSlot, aci) && NotAnId(b, aci)
    ensures !LosesAci(b, Matches(b, aci, e164, pni))
  {
    if aci.Some? { LookupServiceId(b, aci.value); }
  }

  /** On a regular store no identifier of the proper kind is ever lost. */
  lemma RegularLosesNothing(b: Book, aci: Option<string>, e164: Option<string>, pni: Option<string>)
    requires Valid(b) && AllRegular(b.contacts) && Admitted(aci, e164, pni)
    requires ProperValue(ServiceIdSlot, aci) && ProperValue(PniSlot, pni) && NotAnId(b, aci) && NotAnId(b, pni)
    ensures !LosesAci(b, Matches(b, aci, e164, pni)) && !LosesPni(b, Matches(b, aci, e164, pni))
  {
    PniSlotsKeepAcis(b, aci, e164, pni);
    if pni.Some? { LookupServiceId(b, pni.value); }
  }

  // ---------------------------------------------------------------- runs

  datatype Call =
    | MergeCall(aci: Option<string>, e164: Option<string>, pni: Option<string>, freshId: Id)
    | FindCall(identifier: string, freshId: Id)

  /** Identifiers of the right kind that are no local ids, and an unused new local id. */
  ghost predicate ProperCall(b: Book, c: Call) {
    match c
    case MergeCall(aci, e164, pni, freshId) =>
      && (aci.Some? || e164.Some? || pni.Some?) && Supplied(b, aci, e164, pni, freshId)
      && ProperValue(ServiceIdSlot, aci) && ProperValue(PniSlot, pni)
    case FindCall(identifier, freshId) =>
      && (IsServiceIdString(identifier) || IsE164(identifier)) && NotAnId(b, Some(identifier))
      && freshId !in b.contacts && freshId != identifier
  }

  /** The store after a call and the conversation it returns. */
  function Called(b: Book, c: Call): (Book, Option<Id>) {
    match c
    case MergeCall(aci, e164, pni, freshId) =>
      var r := MaybeMergeContacts(b, aci, e164, pni, freshId);
      if r.Merged? then (r.book, Some(r.conversation)) else (b, None)
    case FindCall(identifier, freshId) =>
      var (book, id) := GetOrCreate(b, identifier, Keep, Keep, freshId);
      (book, Some(id))
  }

  function Identifiers(c: Call): seq<Option<string>> {
    match c
    case MergeCall(aci, e164, pni, _) => [aci, e164, pni]
    case FindCall(identifier, _) => [Some(identifier)]
  }

  ghost predicate ProperCalls(b: Book, calls: seq<Call>)
    decreases |calls|
  {
    calls == [] || (ProperCall(b, calls[0]) && ProperCalls(Called(b, calls[0]).0, calls[1..]))
  }

  /** Right after each call of the run, every supplied identifier finds the conversation that was returned. */
  ghost predicate EveryCallFinds(b: Book, calls: seq<Call>)
    decreases |calls|
  {
    calls == [] ||
    (var (book, found) := Called(b, calls[0]);
     && found.Some? && Valid(book)
     && (forall v <- Identifiers(calls[0]) :: v.Some? ==> Lookup(book, v) == found)
     && EveryCallFinds(book, calls[1..]))
  }

  lemma FindCreates(b: Book, identifier: string, freshId: Id)
    requires Valid(b) && AllRegular(b.contacts) && ProperCall(b, FindCall(identifier, freshId))
    requires Lookup(b, Some(identifier)).None?
    ensures
      var (book, id) := GetOrCreate(b, identifier, Keep, Keep, freshId);
      && Valid(book) && AllRegular(book.contacts) && id == freshId
      && book.contacts == b.contacts[freshId := NewContact(identifier, Keep, Keep)] && NotAnId(book, Some(identifier))
  {
    if IsE164(identifier) {
      NoDoublePlus(identifier);
      LookupE164(b, identifier);
    } else {
      NamespacesDisjoint(identifier);
      LookupServiceId(b, identifier);
    }
    CreateSpec(b, identifier, Keep, Keep, freshId);
  }

  /** `getOrCreate` finds what it was asked for and keeps the store regular. */
  lemma FindKeeps(b: Book, identifier: string, freshId: Id)
    requires Valid(b) && AllRegular(b.contacts) && ProperCall(b, FindCall(identifier, freshId))
    ensures
      var (book, id) := GetOrCreate(b, identifier, Keep, Keep, freshId);
      Valid(book) && AllRegular(book.contacts) && Lookup(book, Some(identifier)) == Some(id)
  {
    if Lookup(b, Some(identifier)).None? {
      FindCreates(b, identifier, freshId);
      var book := GetOrCreate(b, identifier, Keep, Keep, freshId).0;
      if IsE164(identifier) {
        NoDoublePlus(identifier);
        LookupE164(book, identifier);
      } else {
        LookupServiceId(book, identifier);
      }
    }
  }

  lemma CallFinds(b: Book, c: Call)
    requires Valid(b) && AllRegular(b.contacts) && ProperCall(b, c)
    ensures
      var (book, found) := Called(b, c);
      && found.Some? && Valid(book) && AllRegular(book.contacts)
      && (forall v <- Identifiers(c) :: v.Some? ==> Lookup(book, v) == found)
  {
    match c
    case FindCall(identifier, freshId) => FindKeeps(b, identifier, freshId);
    case MergeCall(aci, e164, pni, freshId) =>
      if aci.Some? { UuidIsNoPni(aci.value); }
      MergeFindsResult(b, aci, e164, pni, freshId);
      RegularLosesNothing(b, aci, e164, pni);
      MergeKeepsRegular(b, aci, e164, pni, freshId);
  }

  /**
   Over any run of merges and `getOrCreate` from a regular store, such as the empty one, each call
   returns the conversation in which all identifiers it was called with are found.
   */
  lemma {:induction false} RunsFindEverything(b: Book, calls: seq<Call>)
    requires Valid(b) && AllRegular(b.contacts) && ProperCalls(b, calls)
    ensures EveryCallFinds(b, calls)
    decreases |calls|
  {
    if calls != [] {
      CallFinds(b, calls[0]);
      RunsFindEverything(Called(b, calls[0]).0, calls[1..]);
    }
  }

  // ---------------------------------------------------------------- no ACI is lost

  ghost predicate HasAci(contacts: map<Id, Contact>, v: string) {
    exists id :: id in contacts && contacts[id].serviceId == Some(v)
  }

  /** A conversation with another ACI is not the result of a merge by ACI. */
  lemma OtherAciIsNotChosen(
    b: Book, aci: string, e164: Option<string>, pni: Option<string>, freshId: Id, id: Id, v: string)
    requires Valid(b) && AllRegular(b.contacts) && Supplied(b, Some(aci), e164, pni, freshId)
    requires IsUuid(aci) && ProperValue(PniSlot, pni) && IsUuid(v) && v != aci
    requires id in b.contacts && b.contacts[id].serviceId == Some(v)
    ensures Chosen(b, Matches(b, Some(aci), e164, pni), freshId) != id
  {
    UuidIsNoPni(aci);
    UuidIsNoPni(v);
    LookupServiceId(b, aci);
    assert Regular(b.contacts[id]) && !b.contacts[id].Holds(aci);
    assert !CanHost(b.contacts[id], ServiceIdSlot, pni);
  }

  lemma MergeKeepsAci(
    b: Book, aci: Option<string>, e164: Option<string>, pni: Option<string>, freshId: Id, id: Id, v: string)
    requires Valid(b) && AllRegular(b.contacts) && ProperCall(b, MergeCall(aci, e164, pni, freshId)) && IsUuid(v)
    requires id in b.contacts && b.contacts[id].serviceId == Some(v) && aci != Some(v)
    ensures var r := MaybeMergeContacts(b, aci, e164, pni, freshId); r.Merged? && HasAci(r.book.contacts, v)
  {
    UuidIsNoPni(v);
    if aci.Some? { UuidIsNoPni(aci.value); }
    assert Regular(b.contacts[id]);
    MergeTouchesOnlyMatches(b, aci, e164, pni, freshId, id);
    ResultKeepsRest(b, aci, e164, pni, freshId);
    ResultIsChosen(b, aci, e164, pni, freshId);
    if aci.Some? { OtherAciIsNotChosen(b, aci.value, e164, pni, freshId, id, v); }
    assert MaybeMergeContacts(b, aci, e164, pni, freshId).book.contacts[id].serviceId == Some(v);
  }

  lemma MergeHasItsAci(b: Book, v: string, e164: Option<string>, pni: Option<string>, freshId: Id)
    requires Valid(b) && AllRegular(b.contacts) && ProperCall(b, MergeCall(Some(v), e164, pni, freshId))
    ensures var r := MaybeMergeContacts(b, Some(v), e164, pni, freshId); r.Merged? && HasAci(r.book.contacts, v)
  {
    UuidIsNoPni(v);
    CallFinds(b, MergeCall(Some(v), e164, pni, freshId));
    var r := MaybeMergeContacts(b, Some(v), e164, pni, freshId);
    MergeOutcome(b, Some(v), e164, pni, freshId);
    RegularLosesNothing(b, Some(v), e164, pni);
    assert r.book.contacts[r.conversation].Holds(v);
    assert Regular(r.book.contacts[r.conversation]);
  }

  /** Every ACI that a conversation of a regular store has some conversation has after a call. */
  lemma CallKeepsAcis(b: Book, c: Call, v: string)
    requires Valid(b) && AllRegular(b.contacts) && ProperCall(b, c) && IsUuid(v) && HasAci(b.contacts, v)
    ensures HasAci(Called(b, c).0.contacts, v)
  {
    var id :| id in b.contacts && b.contacts[id].serviceId == Some(v);
    match c
    case FindCall(identifier, freshId) =>
      if Lookup(b, Some(identifier)).None? {
        FindCreates(b, identifier, freshId);
        assert Called(b, c).0.contacts[id] == b.contacts[id];
      }
    case MergeCall(aci, e164, pni, freshId) =>
      if aci == Some(v) {
        MergeHasItsAci(b, v, e164, pni, freshId);
      } else {
        MergeKeepsAci(b, aci, e164, pni, freshId, id, v);
      }
  }

  function Run(b: Book, calls: seq<Call>): Book
    decreases |calls|
  {
    if calls == [] then b else Run(Called(b, calls[0]).0, calls[1..])
  }

  /** Over any run of proper calls an ACI once held stays held, whatever becomes of phone numbers and PNIs. */
  lemma {:induction false} AcisStay(b: Book, calls: seq<Call>, v: string)
    requires Valid(b) && AllRegular(b.contacts) && ProperCalls(b, calls) && IsUuid(v) && HasAci(b.contacts, v)
    ensures HasAci(Run(b, calls).contacts, v)
    decreases |calls|
  {
    if calls != [] {
      CallFinds(b, calls[0]);
      CallKeepsAcis(b, calls[0], v);
      AcisStay(Called(b, calls[0]).0, calls[1..], v);
    }
  }

  // ---------------------------------------------------------------- the two losses

  function SingleContact(id: Id, c: Contact): Book {
    AddConversation(Book(map[], map[], map[], map[], map[]), id, c)
  }

  lemma SingleContactValid(id: Id, c: Contact)
    requires c.WellTyped()
    ensures Valid(SingleContact(id, c)) && SingleContact(id, c).contacts == map[id := c]
  {}

  /**
   A conversation has one PNI in its serviceId slot and another in its pni slot. A merge by
   that first PNI and an ACI that is new overwrites the slot, and the PNI is in the store no more.
   */
  lemma PniIsLost(aci: string)
    requires IsUuid(aci)
    ensures
      var b := SingleContact("c", Contact(Some("PNI:1"), None, Some("PNI:2"), None));
      && Valid(b) && Lookup(b, Some("PNI:1")) == Some("c")
      && var r := MaybeMergeContacts(b, Some(aci), None, Some("PNI:1"), "d");
         r.Merged? && r.conversation == "c" && Lookup(r.book, Some("PNI:1")) == None
  {
    var c := Contact(Some("PNI:1"), None, Some("PNI:2"), None);
    var b := SingleContact("c", c);
    SingleContactValid("c", c);
    UuidIsNoPni(aci);
    LookupServiceId(b, "PNI:1");
    LookupServiceId(b, aci);
    MergeFindsResult(b, Some(aci), None, Some("PNI:1"), "d");
    AciGoesToMatch(b, aci, c);
  }

  /** The match can take the ACI, since the PNI it was looked up by sits in its service id slot. */
  lemma AciGoesToMatch(b: Book, aci: string, c: Contact)
    requires b.contacts == map["c" := c] && c.serviceId == Some("PNI:1") && !IsPniString(aci)
    requires Lookup(b, Some(aci)) == None && Lookup(b, Some("PNI:1")) == Some("c")
    ensures
      var r := MaybeMergeContacts(b, Some(aci), None, Some("PNI:1"), "d");
      r.Merged? && r.conversation == "c"
  {
    ThreeRounds(Progress(b, None, [], []), Matches(b, Some(aci), None, Some("PNI:1")), Some("PNI:1"), "d");
    FirstRound(b, Match(ServiceIdSlot, Some(aci), None), Some("PNI:1"), "d");
    ResolveOne(Progress(b, None, [Match(ServiceIdSlot, Some(aci), None)], []), "c", Some("PNI:1"), "d",
               Match(ServiceIdSlot, Some(aci), None));
  }

  /**
   `normalizePni` only warns of a PNI that is none, so a UUID can get into the pni slot. If it is then
   supplied as ACI with a new phone number, that erases it and it is in the store no more.
   */
  lemma UuidInPniSlotIsLost(aci: string)
    requires IsUuid(aci)
    ensures
      var b := SingleContact("c", Contact(None, None, Some(aci), None));
      && Valid(b) && Lookup(b, Some(aci)) == Some("c")
      && var r := MaybeMergeContacts(b, Some(aci), Some("+1"), None, "d");
         r.Merged? && r.conversation == "c" && Lookup(r.book, Some(aci)) == None
  {
    var c := Contact(None, None, Some(aci), None);
    var b := SingleContact("c", c);
    SingleContactValid("c", c);
    UuidIsNoPni(aci);
    LookupServiceId(b, aci);
    MergeFindsResult(b, Some(aci), Some("+1"), None, "d");
    ThreeRounds(Progress(b, None, [], []), Matches(b, Some(aci), Some("+1"), None), None, "d");
  }
}
