/**
 What `maybeMergeContacts` guarantees on any store whose indexes are exact and
 whose identifiers are disjoint.
 */
module ContactMergeProofs {
  import opened Wrappers
  import opened ContactBook
  import opened ContactMerge

  // ---------------------------------------------------------------- the starting lookups

  ghost predicate HeldBy(c: Contact, slot: MergeSlot, v: string) {
    if slot == E164Slot then c.e164 == Some(v) else c.Holds(v)
  }

  /** The match is the one conversation holding the value, if any does. */
  ghost predicate MatchOf(cs: map<Id, Contact>, m: Match) {
    && (m.found.Some? ==> m.value.Some? && m.found.value in cs && HeldBy(cs[m.found.value], m.slot, m.value.value))
    && (m.value.Some? ==>
          forall id :: id in cs && HeldBy(cs[id], m.slot, m.value.value) ==> m.found == Some(id))
  }

  /** What callers supply: well-formed identifiers that are not used as local or group ids. */
  ghost predicate Supplied(b: Book, aci: Option<string>, e164: Option<string>, pni: Option<string>, freshId: Id) {
    && TypedValue(ServiceIdSlot, aci) && TypedValue(E164Slot, e164) && TypedValue(PniSlot, pni)
    && NotAnId(b, aci) && NotAnId(b, e164) && NotAnId(b, pni)
    && freshId !in b.contacts && Some(freshId) != aci && Some(freshId) != e164 && Some(freshId) != pni
  }

  lemma LookupMatch(b: Book, slot: MergeSlot, value: Option<string>)
    requires Valid(b) && TypedValue(slot, value) && NotAnId(b, value)
    ensures MatchOf(b.contacts, Match(slot, value, Lookup(b, value)))
  {
    if value.Some? {
      if slot == E164Slot { LookupE164(b, value.value); } else { LookupServiceId(b, value.value); }
    }
  }

  // ---------------------------------------------------------------- single moves

  /** An identifier that at most the receiver holds can be written to the receiver. */
  lemma AssignSpec(b: Book, t: Id, slot: MergeSlot, value: Option<string>)
    requires Valid(b) && t in b.contacts && value.Some? && TypedValue(slot, value)
    requires forall id :: id in b.contacts && id != t ==> !HeldBy(b.contacts[id], slot, value.value)
    ensures Valid(ApplyChange(b, t, JustPut(slot, value)))
    ensures ApplyChange(b, t, JustPut(slot, value)).contacts
            == b.contacts[t := Edited(b.contacts[t], JustPut(slot, value))]
  {
    ApplyChangeSpec(b, t, JustPut(slot, value));
  }

  function Cleared(c: Contact, slot: MergeSlot, pni: Option<string>): Contact {
    Edited(c, Clearing(c, slot, pni))
  }

  lemma ClearSpec(b: Book, id: Id, slot: MergeSlot, pni: Option<string>)
    requires Valid(b) && id in b.contacts
    ensures Valid(ApplyChange(b, id, Clearing(b.contacts[id], slot, pni)))
    ensures ApplyChange(b, id, Clearing(b.contacts[id], slot, pni)).contacts
            == b.contacts[id := Cleared(b.contacts[id], slot, pni)]
  {
    ApplyChangeSpec(b, id, Clearing(b.contacts[id], slot, pni));
  }

  lemma ClearedE164(c: Contact, pni: Option<string>)
    ensures
      var d := Cleared(c, E164Slot, pni);
      && d.e164.None? && d.pni.None? && d.groupId == c.groupId
      && d.serviceId == if c.serviceId == pni || c.serviceId == c.pni then None else c.serviceId
  {}

  lemma ClearedPni(c: Contact, pni: Option<string>)
    ensures
      var d := Cleared(c, PniSlot, pni);
      && d.e164 == c.e164 && d.pni.None? && d.groupId == c.groupId
      && d.serviceId == if c.serviceId == pni || c.serviceId == c.pni then None else c.serviceId
  {}

  lemma EditedServiceId(c: Contact, v: string)
    ensures Edited(c, JustPut(ServiceIdSlot, Some(v))) == c.(serviceId := Some(v))
  {}

  lemma EditedE164(c: Contact, v: string)
    ensures Edited(c, JustPut(E164Slot, Some(v)))
            == Contact(if c.serviceId == c.pni then None else c.serviceId, Some(v), None, c.groupId)
  {}

  lemma EditedPni(c: Contact, v: string)
    ensures Edited(c, JustPut(PniSlot, Some(v)))
            == Contact(
                 if c.serviceId.None? || c.serviceId == c.pni then Some(v) else c.serviceId, c.e164, Some(v), c.groupId)
  {}

  lemma MoveSpec(p: Progress, t: Id, m: Match, found: Id, pni: Option<string>)
    requires Valid(p.book) && t in p.book.contacts && found in p.book.contacts && t != found
    requires m.value.Some? && TypedValue(m.slot, m.value)
    requires m.slot == E164Slot || (m.slot == PniSlot && m.value == pni)
    requires forall id :: id in p.book.contacts && id != found && id != t ==>
        !HeldBy(p.book.contacts[id], m.slot, m.value.value)
    ensures
      var q := MoveIdentifier(p, t, m, found, pni);
      var cs := p.book.contacts;
      var left := Cleared(cs[found], m.slot, pni);
      && Valid(q.book)
      && q.book.contacts == cs[found := left][t := Edited(cs[t], JustPut(m.slot, m.value))]
      && q.merges == (if left.Bare() then p.merges + [Merge(t, found)] else p.merges)
      && q.target == p.target && q.unused == p.unused
  {
    ClearSpec(p.book, found, m.slot, pni);
    var cleared := ApplyChange(p.book, found, Clearing(p.book.contacts[found], m.slot, pni));
    if m.slot == E164Slot {
      ClearedE164(p.book.contacts[found], pni);
    } else {
      ClearedPni(p.book.contacts[found], pni);
    }
    AssignSpec(cleared, t, m.slot, m.value);
  }

  lemma CreateSpec(b: Book, identifier: string, e164: Edit, pni: Edit, freshId: Id)
    requires Valid(b) && freshId !in b.contacts
    requires Lookup(b, Some(identifier)).None?
    requires
      var c := NewContact(identifier, e164, pni);
      && c.WellTyped()
      && Free(b.contacts, freshId, ServiceIdSlot, c.serviceId)
      && Free(b.contacts, freshId, E164Slot, c.e164)
      && Free(b.contacts, freshId, PniSlot, c.pni)
    ensures
      var (b', id) := GetOrCreate(b, identifier, e164, pni, freshId);
      && id == freshId && Valid(b')
      && b'.contacts == b.contacts[freshId := NewContact(identifier, e164, pni)]
  {
    AddKeepsValid(b, freshId, NewContact(identifier, e164, pni));
  }

  // ---------------------------------------------------------------- after the aci and e164 lookups

  /** The three lookups of a call, made on a valid store with well-formed identifiers. */
  /** Three lookups, each of which found the holder. */
  ghost predicate Matched(b: Book, ms: seq<Match>) {
    && |ms| == 3 && ms[0].slot == ServiceIdSlot && ms[1].slot == E164Slot && ms[2].slot == PniSlot
    && forall m <- ms :: MatchOf(b.contacts, m) && TypedValue(m.slot, m.value)
  }

  ghost predicate Start(b: Book, ms: seq<Match>, freshId: Id) {
    Valid(b) && Matched(b, ms) && (forall m <- ms :: m.found == Lookup(b, m.value)) && freshId !in b.contacts
  }

  /** A valid store in which only the target and the e164 match may differ from the original. */
  ghost predicate Framed(b: Book, ms: seq<Match>, p: Progress, t: Id)
    requires |ms| == 3
  {
    && Valid(p.book) && p.unused == [] && p.target == Some(t) && p.book.contacts.Keys == b.contacts.Keys + {t}
    && forall id :: id in b.contacts && id != t && ms[1].found != Some(id) ==> p.book.contacts[id] == b.contacts[id]
  }

  /** An e164 match that is not the target lost its phone number; left bare, it was merged into the target. */
  ghost predicate E164Moved(b: Book, ms: seq<Match>, p: Progress, t: Id)
    requires |ms| == 3
  {
    if ms[1].found.Some? && ms[1].found.value != t then
      var e := ms[1].found.value;
      && e in b.contacts && e in p.book.contacts
      && p.book.contacts[e] == Cleared(b.contacts[e], E164Slot, ms[2].value)
      && p.merges == (if p.book.contacts[e].Bare() then [Merge(t, e)] else [])
    else p.merges == []
  }

  ghost predicate FoundInStore(b: Book, ms: seq<Match>) {
    |ms| == 3 && forall m <- ms :: m.found.Some? ==> m.found.value in b.contacts
  }

  /** What the target's record `c` has become. */
  ghost predicate TargetRecord(b: Book, ms: seq<Match>, freshId: Id, t: Id, c: Contact)
    requires FoundInStore(b, ms)
  {
    var aci, e164 := ms[0].value, ms[1].value;
    if ms[0].found.Some? then
      && t == ms[0].found.value
      && var was := b.contacts[t];
         c == if e164.Some? && was.e164 != e164 then Edited(was, JustPut(E164Slot, e164)) else was
    else if ms[1].found == Some(t) then
      && c == b.contacts[t].(serviceId := if aci.Some? then aci else b.contacts[t].serviceId)
      && (aci.Some? ==> CanHost(b.contacts[t], ServiceIdSlot, ms[2].value))
    else
      && t == freshId && aci.Some? && ms[1].found.Some? && c == Contact(aci, e164, None, None)
      && !CanHost(b.contacts[ms[1].found.value], ServiceIdSlot, ms[2].value)
  }

  /** The state once a target is known, described on the contacts of the original store. */
  ghost predicate TargetKnown(b: Book, ms: seq<Match>, freshId: Id, p: Progress, t: Id)
    requires FoundInStore(b, ms)
  {
    && Framed(b, ms, p, t) && E164Moved(b, ms, p, t)
    && TargetRecord(b, ms, freshId, t, p.book.contacts[t])
  }

  ghost predicate NoTargetYet(b: Book, ms: seq<Match>, p: Progress)
    requires |ms| == 3
  {
    && ms[0].found.None? && ms[1].found.None?
    && p == Progress(
         b, None, (if ms[0].value.Some? then [ms[0]] else []) + (if ms[1].value.Some? then [ms[1]] else []), [])
  }

  function FirstTwo(b: Book, ms: seq<Match>, freshId: Id): Progress
    requires |ms| == 3
  {
    var p := ProcessMatch(Progress(b, None, [], []), ms[0], ms[2].value, freshId);
    ProcessMatch(p, ms[1], ms[2].value, freshId)
  }

  /** The first round only records the match, or keeps the identifier for later. */
  lemma FirstRound(b: Book, m: Match, pni: Option<string>, freshId: Id)
    requires m.found.Some? ==> m.value.Some?
    ensures ProcessMatch(Progress(b, None, [], []), m, pni, freshId)
            == Progress(b, m.found, if m.value.Some? && m.found.None? then [m] else [], [])
  {}

  lemma AciMatched(b: Book, ms: seq<Match>, freshId: Id)
    requires Start(b, ms, freshId) && ms[0].found.Some?
    requires ms[1].value.Some? ==> ms[1].found == ms[0].found
    ensures TargetKnown(b, ms, freshId, FirstTwo(b, ms, freshId), ms[0].found.value)
  {}

  lemma AciMatchedNewE164(b: Book, ms: seq<Match>, freshId: Id)
    requires Start(b, ms, freshId) && ms[0].found.Some? && ms[1].value.Some? && ms[1].found.None?
    ensures TargetKnown(b, ms, freshId, FirstTwo(b, ms, freshId), ms[0].found.value)
  {
    var t := ms[0].found.value;
    FirstRound(b, ms[0], ms[2].value, freshId);
    var q := Progress(ApplyChange(b, t, JustPut(E164Slot, ms[1].value)), Some(t), [], []);
    assert FirstTwo(b, ms, freshId) == q;
    AssignSpec(b, t, E164Slot, ms[1].value);
  }

  lemma MovedFrames(b: Book, ms: seq<Match>, q: Progress, t: Id, found: Id, left: Contact, c: Contact)
    requires |ms| == 3 && ms[1].found == Some(found) && found != t && found in b.contacts
    requires left == Cleared(b.contacts[found], E164Slot, ms[2].value)
    requires Valid(q.book) && q.target == Some(t) && q.unused == []
    requires q.book.contacts == b.contacts[found := left][t := c]
    requires q.merges == if left.Bare() then [Merge(t, found)] else []
    ensures Framed(b, ms, q, t) && E164Moved(b, ms, q, t)
  {}

  /** The e164 moves from its match to the target `t`, whose record is `c` by then. */
  lemma MoveE164(b: Book, ms: seq<Match>, p: Progress, t: Id, c: Contact)
    requires |ms| == 3 && ms[1].slot == E164Slot && ms[1].found.Some? && ms[1].found.value != t
    requires MatchOf(b.contacts, ms[1]) && TypedValue(E164Slot, ms[1].value)
    requires Valid(p.book) && p == Progress(p.book, Some(t), [], []) && p.book.contacts == b.contacts[t := c]
    ensures
      var q := MoveIdentifier(p, t, ms[1], ms[1].found.value, ms[2].value);
      Framed(b, ms, q, t) && E164Moved(b, ms, q, t) && q.book.contacts[t] == Edited(c, JustPut(E164Slot, ms[1].value))
  {
    var found := ms[1].found.value;
    OnlyMatchHolds(b.contacts, p.book.contacts, ms[1], t);
    MoveSpec(p, t, ms[1], found, ms[2].value);
    E164MovedTo(b, ms, p, MoveIdentifier(p, t, ms[1], found, ms[2].value), t, found, c);
  }

  lemma OnlyMatchHolds(cs: map<Id, Contact>, now: map<Id, Contact>, m: Match, t: Id)
    requires MatchOf(cs, m) && m.found.Some? && forall id :: id in now && id != t ==> id in cs && now[id] == cs[id]
    ensures m.value.Some?
    ensures forall id :: id in now && id != m.found.value && id != t ==> !HeldBy(now[id], m.slot, m.value.value)
  {}

  lemma E164MovedTo(b: Book, ms: seq<Match>, p: Progress, q: Progress, t: Id, found: Id, c: Contact)
    requires |ms| == 3 && ms[1].found == Some(found) && found != t && found in b.contacts
    requires p.book.contacts == b.contacts[t := c] && p.target == Some(t) && p.unused == [] && p.merges == []
    requires
      var left := Cleared(b.contacts[found], E164Slot, ms[2].value);
      && Valid(q.book)
      && q.book.contacts == p.book.contacts[found := left][t := Edited(c, JustPut(E164Slot, ms[1].value))]
      && q.merges == (if left.Bare() then p.merges + [Merge(t, found)] else p.merges)
      && q.target == p.target && q.unused == p.unused
    ensures Framed(b, ms, q, t) && E164Moved(b, ms, q, t)
    ensures q.book.contacts[t] == Edited(c, JustPut(E164Slot, ms[1].value))
  {
    var left, now := Cleared(b.contacts[found], E164Slot, ms[2].value), q.book.contacts[t];
    assert p.book.contacts[found := left][t := now] == b.contacts[found := left][t := now];
    MovedFrames(b, ms, q, t, found, left, now);
  }

  lemma AciMatchedOtherE164(b: Book, ms: seq<Match>, freshId: Id)
    requires Start(b, ms, freshId) && ms[0].found.Some? && ms[1].found.Some? && ms[0].found != ms[1].found
    ensures TargetKnown(b, ms, freshId, FirstTwo(b, ms, freshId), ms[0].found.value)
  {
    var t := ms[0].found.value;
    FirstRound(b, ms[0], ms[2].value, freshId);
    MoveE164(b, ms, Progress(b, Some(t), [], []), t, b.contacts[t]);
  }

  /** One unused identifier: the host is chosen once and the identifier written to it. */
  lemma ResolveOne(p: Progress, found: Id, pni: Option<string>, freshId: Id, u: Match)
    ensures
      var (book, target) := Host(p, found, u, pni, freshId);
      ResolveUnused(p, found, pni, freshId, [u])
      == p.(book := ApplyChange(book, target, JustPut(u.slot, u.value)), target := Some(target))
  {}

  lemma AciHosted(b: Book, ms: seq<Match>, freshId: Id)
    requires Start(b, ms, freshId) && ms[0].found.None? && ms[0].value.Some? && ms[1].found.Some?
    requires CanHost(b.contacts[ms[1].found.value], ServiceIdSlot, ms[2].value)
    ensures TargetKnown(b, ms, freshId, FirstTwo(b, ms, freshId), ms[1].found.value)
  {
    var found := ms[1].found.value;
    var p := Progress(b, None, [ms[0]], []);
    FirstRound(b, ms[0], ms[2].value, freshId);
    ResolveOne(p, found, ms[2].value, freshId, ms[0]);
    EditedServiceId(b.contacts[found], ms[0].value.value);
    AssignSpec(b, found, ServiceIdSlot, ms[0].value);
    var q := Progress(ApplyChange(b, found, JustPut(ServiceIdSlot, ms[0].value)), Some(found), [], []);
    assert FirstTwo(b, ms, freshId) == q;
  }

  lemma CreatedBook(b: Book, u: Match, freshId: Id)
    requires Valid(b) && u.slot != PniSlot && freshId !in b.contacts
    requires u.value.Some? && u.found.None? && MatchOf(b.contacts, u) && TypedValue(u.slot, u.value)
    requires u.found == Lookup(b, u.value)
    ensures
      var b1 := GetOrCreate(b, u.value.value, Keep, Keep, freshId).0;
      Valid(b1) && b1.contacts == b.contacts[freshId := NewContact(u.value.value, Keep, Keep)]
  {
    if u.slot == E164Slot { NoDoublePlus(u.value.value); }
    CreateSpec(b, u.value.value, Keep, Keep, freshId);
  }

  lemma CreateFor(b: Book, u: Match, freshId: Id)
    requires Valid(b) && u.slot != PniSlot && freshId !in b.contacts
    requires u.value.Some? && u.found.None? && MatchOf(b.contacts, u) && TypedValue(u.slot, u.value)
    requires u.found == Lookup(b, u.value)
    ensures
      var b1 := GetOrCreate(b, u.value.value, Keep, Keep, freshId).0;
      var b2 := ApplyChange(b1, freshId, JustPut(u.slot, u.value));
      && GetOrCreate(b, u.value.value, Keep, Keep, freshId).1 == freshId
      && Valid(b2)
      && b2.contacts == b.contacts[freshId := NewContact(u.value.value, Keep, Keep)]
  {
    var v := u.value.value;
    if u.slot == E164Slot { NoDoublePlus(v); }
    CreatedBook(b, u, freshId);
    var b1 := GetOrCreate(b, v, Keep, Keep, freshId).0;
    AssignSpec(b1, freshId, u.slot, u.value);
    if u.slot == E164Slot { EditedE164(b1.contacts[freshId], v); } else { EditedServiceId(b1.contacts[freshId], v); }
  }

  lemma AciCreated(b: Book, ms: seq<Match>, freshId: Id)
    requires Start(b, ms, freshId) && ms[0].found.None? && ms[0].value.Some? && ms[1].found.Some?
    requires !CanHost(b.contacts[ms[1].found.value], ServiceIdSlot, ms[2].value)
    ensures TargetKnown(b, ms, freshId, FirstTwo(b, ms, freshId), freshId)
  {
    var found, aci := ms[1].found.value, ms[0].value;
    FirstRound(b, ms[0], ms[2].value, freshId);
    ResolveOne(Progress(b, None, [ms[0]], []), found, ms[2].value, freshId, ms[0]);
    CreateFor(b, ms[0], freshId);
    var b1 := GetOrCreate(b, aci.value, Keep, Keep, freshId).0;
    var q := Progress(ApplyChange(b1, freshId, JustPut(ServiceIdSlot, aci)), Some(freshId), [], []);
    assert FirstTwo(b, ms, freshId) == MoveIdentifier(q, freshId, ms[1], found, ms[2].value);
    MoveE164(b, ms, q, freshId, Contact(aci, None, None, None));
    EditedE164(Contact(aci, None, None, None), ms[1].value.value);
  }

  /** Where the first two lookups lead. */
  lemma AfterFirstTwo(b: Book, ms: seq<Match>, freshId: Id)
    requires Start(b, ms, freshId)
    ensures
      var p := FirstTwo(b, ms, freshId);
      if ms[0].found.None? && ms[1].found.None? then NoTargetYet(b, ms, p)
      else p.target.Some? && TargetKnown(b, ms, freshId, p, p.target.value)
  {
    if ms[0].found.Some? {
      if ms[1].found.None? && ms[1].value.Some? {
        AciMatchedNewE164(b, ms, freshId);
      } else if ms[1].found.Some? && ms[0].found != ms[1].found {
        AciMatchedOtherE164(b, ms, freshId);
      } else {
        AciMatched(b, ms, freshId);
      }
    } else if ms[1].found.Some? && ms[0].value.Some? {
      if CanHost(b.contacts[ms[1].found.value], ServiceIdSlot, ms[2].value) {
        AciHosted(b, ms, freshId);
      } else {
        AciCreated(b, ms, freshId);
      }
    }
  }

  // ---------------------------------------------------------------- the outcome

  /** Nothing is gained, and a service id that is neither the supplied PNI nor its own is not lost either. */
  ghost predicate OnlyLoses(was: Contact, now: Contact, pni: Option<string>) {
    && (now.serviceId.None? || now.serviceId == was.serviceId)
    && (was.serviceId != was.pni && was.serviceId != pni ==> now.serviceId == was.serviceId)
    && (now.e164.None? || now.e164 == was.e164)
    && (now.pni.None? || now.pni == was.pni)
    && now.groupId == was.groupId
  }

  predicate Untouched(ms: seq<Match>, id: Id)
    requires |ms| == 3
  {
    ms[0].found != Some(id) && ms[1].found != Some(id) && ms[2].found != Some(id)
  }

  /** Only the result gains anything, and conversations that did not match stay as they were. */
  ghost predicate OthersKept(b: Book, ms: seq<Match>, cs: map<Id, Contact>, r: Id)
    requires |ms| == 3
  {
    && cs.Keys == b.contacts.Keys + {r}
    && forall id :: id in b.contacts && id != r ==>
         OnlyLoses(b.contacts[id], cs[id], ms[2].value) && (Untouched(ms, id) ==> cs[id] == b.contacts[id])
  }

  /** Merged away are exactly the matches that are not the result and have no identifier left. */
  ghost predicate MergesRight(ms: seq<Match>, cs: map<Id, Contact>, r: Id, merges: seq<Merge>)
    requires |ms| == 3
  {
    && (ms[0].found.Some? ==> ms[0].found == Some(r))
    && (forall g :: g in merges <==>
          && g.current == r && g.obsolete != r && !Untouched(ms, g.obsolete)
          && g.obsolete in cs && cs[g.obsolete].Bare())
  }

  /** The match keeps the ACI in its pni slot only, and the other two identifiers displace it from there. */
  predicate LosesAci(b: Book, ms: seq<Match>)
    requires |ms| == 3
  {
    && ms[0].found.Some? && ms[0].value != ms[2].value
    && var c := At(b, ms[0].found.value);
       && !(c.serviceId == ms[0].value && c.pni != ms[0].value)
       && ((ms[1].value.Some? && c.e164 != ms[1].value) || (ms[2].value.Some? && ms[2].found != ms[0].found))
  }

  /** A new ACI displaces the PNI from the serviceId slot while another PNI keeps it out of the pni slot. */
  predicate LosesPni(b: Book, ms: seq<Match>)
    requires |ms| == 3
  {
    && ms[0].value.Some? && ms[0].found.None? && ms[2].found.Some?
    && (ms[1].value.None? || ms[1].found == ms[2].found)
    && var c := At(b, ms[2].found.value);
       c.serviceId == ms[2].value && c.pni.Some? && c.pni != ms[2].value
  }

  /** The result carries every supplied identifier except the ones described above. */
  ghost predicate ResultRecord(b: Book, ms: seq<Match>, c: Contact)
    requires |ms| == 3
  {
    && (ms[0].value.Some? ==> (c.Holds(ms[0].value.value) <==> !LosesAci(b, ms)))
    && (ms[1].value.Some? ==> c.e164 == ms[1].value)
    && (ms[2].value.Some? ==> (c.Holds(ms[2].value.value) <==> !LosesPni(b, ms)))
  }

  /** What was not supplied stays on the result; only a new phone number erases the PNI. */
  ghost predicate KeepsRest(b: Book, ms: seq<Match>, r: Id, c: Contact)
    requires |ms| == 3
  {
    r in b.contacts ==>
      var was := b.contacts[r];
      var samePhone := ms[1].value.None? || ms[1].value == was.e164;
      && (ms[1].value.None? ==> c.e164 == was.e164)
      && (ms[2].value.None? && samePhone ==> c.pni == was.pni && (ms[0].value.None? ==> c == was))
      && (ms[2].value.None? && !samePhone ==> c.pni.None?)
      && (ms[0].value.None? && was.serviceId.Some? && was.serviceId != was.pni && was.serviceId != ms[2].value ==>
            c.serviceId == was.serviceId)
  }

  /** A PNI match that is not the result has lost the PNI. */
  ghost predicate PniLeftMatch(ms: seq<Match>, cs: map<Id, Contact>, r: Id)
    requires |ms| == 3
  {
    ms[2].found.Some? && ms[2].value.Some? && ms[2].found.value != r && ms[2].found.value in cs ==>
      !cs[ms[2].found.value].Holds(ms[2].value.value)
  }

  /** The result is a stored conversation, or the one new conversation, which is no group. */
  ghost predicate SameOrNew(b: Book, freshId: Id, r: Id, c: Contact) {
    if r in b.contacts then c.groupId == b.contacts[r].groupId else r == freshId && c.groupId.None?
  }

  ghost predicate Outcome(b: Book, ms: seq<Match>, freshId: Id, p: Progress)
    requires |ms| == 3
  {
    && p.target.Some? && Valid(p.book)
    && OthersKept(b, ms, p.book.contacts, p.target.value)
    && MergesRight(ms, p.book.contacts, p.target.value, p.merges)
    && ResultRecord(b, ms, p.book.contacts[p.target.value])
    && KeepsRest(b, ms, p.target.value, p.book.contacts[p.target.value])
    && PniLeftMatch(ms, p.book.contacts, p.target.value)
    && SameOrNew(b, freshId, p.target.value, p.book.contacts[p.target.value])
  }

  // ---------------------------------------------------------------- the pni lookup, with a target

  lemma RecordAfterPni(b: Book, ms: seq<Match>, freshId: Id, t: Id, c: Contact, c': Contact)
    requires Matched(b, ms) && freshId !in b.contacts && TargetRecord(b, ms, freshId, t, c)
    requires
      if ms[2].value.None? then c' == c
      else if ms[2].found == Some(t) then
        c' == if c.pni.None? then Edited(c, JustPut(PniSlot, ms[2].value)) else c
      else c' == Edited(c, JustPut(PniSlot, ms[2].value))
    ensures ResultRecord(b, ms, c') && KeepsRest(b, ms, t, c')
  {
    if ms[1].value.Some? && ms[0].found.Some? { EditedE164(b.contacts[t], ms[1].value.value); }
    if ms[2].value.Some? { EditedPni(c, ms[2].value.value); }
  }

  lemma ClearedOnlyLoses(c: Contact, d: Contact, slot: MergeSlot, pni: Option<string>)
    requires slot != ServiceIdSlot && OnlyLoses(c, d, pni)
    ensures OnlyLoses(c, Cleared(d, slot, pni), pni)
    ensures d.Bare() ==> Cleared(d, slot, pni).Bare()
  {}

  /** Seen from the original store, everybody but the target has only lost identifiers so far. */
  lemma KnownKeepsOthers(b: Book, ms: seq<Match>, p: Progress, t: Id)
    requires |ms| == 3 && Framed(b, ms, p, t) && E164Moved(b, ms, p, t)
    ensures OthersKept(b, ms, p.book.contacts, t)
  {
    forall id | id in b.contacts && id != t
      ensures OnlyLoses(b.contacts[id], p.book.contacts[id], ms[2].value)
    {
      if ms[1].found == Some(id) { ClearedOnlyLoses(b.contacts[id], b.contacts[id], E164Slot, ms[2].value); }
    }
  }

  /** A conversation that did not hold the PNI at the start does not hold it now, unless it is the target. */
  lemma PniStillWithMatch(b: Book, ms: seq<Match>, cs: map<Id, Contact>, t: Id)
    requires |ms| == 3 && ms[2].slot == PniSlot && MatchOf(b.contacts, ms[2]) && ms[2].value.Some?
    requires OthersKept(b, ms, cs, t)
    ensures forall id :: id in cs && id != t && ms[2].found != Some(id) ==> !HeldBy(cs[id], PniSlot, ms[2].value.value)
  {}

  lemma KnownSameOrNew(b: Book, ms: seq<Match>, freshId: Id, t: Id, was: Contact, c: Contact)
    requires FoundInStore(b, ms) && freshId !in b.contacts && TargetRecord(b, ms, freshId, t, was)
    requires c.groupId == was.groupId
    ensures SameOrNew(b, freshId, t, c)
  {}

  function LastRound(p: Progress, ms: seq<Match>, freshId: Id): Progress
    requires |ms| == 3
  {
    ProcessMatch(p, ms[2], ms[2].value, freshId)
  }

  /** A last round that changes at most the target's own record. */
  lemma TargetOnly(b: Book, ms: seq<Match>, p: Progress, q: Progress, t: Id, c: Contact)
    requires |ms| == 3 && (ms[2].found.None? || ms[2].found == Some(t))
    requires ms[0].found.Some? ==> ms[0].found.value == t
    requires Framed(b, ms, p, t) && E164Moved(b, ms, p, t)
    requires q.book.contacts == p.book.contacts[t := c] && q.merges == p.merges
    ensures OthersKept(b, ms, q.book.contacts, t) && MergesRight(ms, q.book.contacts, t, q.merges)
  {
    KnownKeepsOthers(b, ms, p, t);
  }

  lemma PniAssigned(b: Book, ms: seq<Match>, freshId: Id, p: Progress, t: Id)
    requires Start(b, ms, freshId) && TargetKnown(b, ms, freshId, p, t) && ms[2].value.Some?
    requires ms[2].found.None? || ms[2].found == Some(t)
    ensures
      var b' := ApplyChange(p.book, t, JustPut(PniSlot, ms[2].value));
      && Valid(b')
      && b'.contacts == p.book.contacts[t := Edited(p.book.contacts[t], JustPut(PniSlot, ms[2].value))]
  {
    KnownKeepsOthers(b, ms, p, t);
    assert MatchOf(b.contacts, ms[2]) && TypedValue(PniSlot, ms[2].value);
    PniStillWithMatch(b, ms, p.book.contacts, t);
    AssignSpec(p.book, t, PniSlot, ms[2].value);
  }

  lemma TargetDone(b: Book, ms: seq<Match>, freshId: Id, p: Progress, q: Progress, t: Id, c: Contact)
    requires Matched(b, ms) && freshId !in b.contacts && TargetKnown(b, ms, freshId, p, t)
    requires (ms[2].found.None? || ms[2].found == Some(t)) && (ms[0].found.Some? ==> ms[0].found.value == t)
    requires Valid(q.book) && q.book.contacts == p.book.contacts[t := c] && q.merges == p.merges && q.target == Some(t)
    requires ResultRecord(b, ms, c) && KeepsRest(b, ms, t, c) && c.groupId == p.book.contacts[t].groupId
    ensures Outcome(b, ms, freshId, q)
  {
    TargetOnly(b, ms, p, q, t, c);
    KnownSameOrNew(b, ms, freshId, t, p.book.contacts[t], c);
  }

  /** The PNI matched nothing, or the target itself: it is written to the target where it is missing. */
  lemma PniToTarget(b: Book, ms: seq<Match>, freshId: Id, p: Progress, t: Id)
    requires Start(b, ms, freshId) && TargetKnown(b, ms, freshId, p, t)
    requires ms[2].found.None? || ms[2].found == Some(t)
    requires ms[0].found.Some? ==> ms[0].found.value == t
    ensures Outcome(b, ms, freshId, LastRound(p, ms, freshId)) && LastRound(p, ms, freshId).target == Some(t)
  {
    var q := LastRound(p, ms, freshId);
    PniRoundSpec(b, ms, freshId, p, t);
    PniRoundDone(b, ms, freshId, p, q, t);
  }

  lemma PniRoundDone(b: Book, ms: seq<Match>, freshId: Id, p: Progress, q: Progress, t: Id)
    requires Matched(b, ms) && freshId !in b.contacts && TargetKnown(b, ms, freshId, p, t)
    requires (ms[2].found.None? || ms[2].found == Some(t)) && (ms[0].found.Some? ==> ms[0].found.value == t)
    requires Valid(q.book) && q.book.contacts == p.book.contacts[t := AfterPni(p.book.contacts[t], ms)]
    requires q.merges == p.merges && q.target == Some(t)
    ensures Outcome(b, ms, freshId, q)
  {
    var c := p.book.contacts[t];
    RecordAfterPni(b, ms, freshId, t, c, AfterPni(c, ms));
    PniKeepsGroup(c, ms);
    TargetDone(b, ms, freshId, p, q, t, AfterPni(c, ms));
  }

  lemma PniKeepsGroup(c: Contact, ms: seq<Match>)
    requires |ms| == 3
    ensures AfterPni(c, ms).groupId == c.groupId
  {}

  /** What the last round makes of the target, if the PNI matched it or nothing. */
  function AfterPni(c: Contact, ms: seq<Match>): Contact
    requires |ms| == 3
  {
    if ms[2].value.Some? && (ms[2].found.None? || c.pni.None?) then Edited(c, JustPut(PniSlot, ms[2].value)) else c
  }

  lemma PniRoundSpec(b: Book, ms: seq<Match>, freshId: Id, p: Progress, t: Id)
    requires Start(b, ms, freshId) && TargetKnown(b, ms, freshId, p, t)
    requires ms[2].found.None? || ms[2].found == Some(t)
    ensures
      var q := LastRound(p, ms, freshId);
      && Valid(q.book) && q.book.contacts == p.book.contacts[t := AfterPni(p.book.contacts[t], ms)]
      && q.merges == p.merges && q.target == Some(t)
  {
    PniRound(p, ms, freshId, t);
    if ms[2].value.Some? { PniAssigned(b, ms, freshId, p, t); }
  }

  lemma PniRound(p: Progress, ms: seq<Match>, freshId: Id, t: Id)
    requires |ms| == 3 && ms[2].slot == PniSlot && p.target == Some(t) && p.unused == [] && t in p.book.contacts
    requires ms[2].found.None? || (ms[2].found == Some(t) && ms[2].value.Some?)
    ensures
      LastRound(p, ms, freshId)
      == if ms[2].value.Some? && (ms[2].found.None? || p.book.contacts[t].pni.None?)
         then p.(book := ApplyChange(p.book, t, JustPut(PniSlot, ms[2].value))) else p
  {}

  lemma MovedKeepsOthers(b: Book, ms: seq<Match>, p: Progress, cs: map<Id, Contact>, t: Id, found: Id, c: Contact)
    requires |ms| == 3 && ms[2].found == Some(found) && found != t && found in b.contacts
    requires Framed(b, ms, p, t) && OthersKept(b, ms, p.book.contacts, t)
    requires cs == p.book.contacts[found := Cleared(p.book.contacts[found], PniSlot, ms[2].value)][t := c]
    ensures OthersKept(b, ms, cs, t)
  {
    ClearedOnlyLoses(b.contacts[found], p.book.contacts[found], PniSlot, ms[2].value);
    forall id | id in b.contacts && id != t
      ensures OnlyLoses(b.contacts[id], cs[id], ms[2].value) && (Untouched(ms, id) ==> cs[id] == b.contacts[id])
    {
      assert id != found ==> cs[id] == p.book.contacts[id];
    }
  }

  lemma MovedMergesRight(b: Book, ms: seq<Match>, p: Progress, q: Progress, t: Id, found: Id, c: Contact)
    requires |ms| == 3 && ms[2].found == Some(found) && found != t && found in b.contacts
    requires Framed(b, ms, p, t) && E164Moved(b, ms, p, t) && (ms[0].found.Some? ==> ms[0].found.value == t)
    requires q.book.contacts == p.book.contacts[found := Cleared(p.book.contacts[found], PniSlot, ms[2].value)][t := c]
    requires q.merges == if q.book.contacts[found].Bare() then p.merges + [Merge(t, found)] else p.merges
    ensures MergesRight(ms, q.book.contacts, t, q.merges)
  {
    ClearedPni(p.book.contacts[found], ms[2].value);
  }

  lemma MoveDone(b: Book, ms: seq<Match>, freshId: Id, p: Progress, q: Progress, t: Id, found: Id, c: Contact)
    requires Matched(b, ms) && freshId !in b.contacts && TargetKnown(b, ms, freshId, p, t)
    requires ms[2].found == Some(found) && found != t && found in b.contacts
    requires ms[0].found.Some? ==> ms[0].found.value == t
    requires Valid(q.book) && q.target == Some(t) && c == Edited(p.book.contacts[t], JustPut(PniSlot, ms[2].value))
    requires q.book.contacts == p.book.contacts[found := Cleared(p.book.contacts[found], PniSlot, ms[2].value)][t := c]
    requires q.merges == if q.book.contacts[found].Bare() then p.merges + [Merge(t, found)] else p.merges
    ensures Outcome(b, ms, freshId, q)
  {
    KnownKeepsOthers(b, ms, p, t);
    MovedKeepsOthers(b, ms, p, q.book.contacts, t, found, c);
    MovedMergesRight(b, ms, p, q, t, found, c);
    ClearedPni(p.book.contacts[found], ms[2].value);
    RecordAfterPni(b, ms, freshId, t, p.book.contacts[t], c);
    KnownSameOrNew(b, ms, freshId, t, p.book.contacts[t], c);
  }

  /** The PNI matched another conversation: it moves, and that conversation may be merged away. */
  lemma PniFromOther(b: Book, ms: seq<Match>, freshId: Id, p: Progress, t: Id)
    requires Start(b, ms, freshId) && TargetKnown(b, ms, freshId, p, t)
    requires ms[2].found.Some? && ms[2].found.value != t
    requires ms[0].found.Some? ==> ms[0].found.value == t
    ensures Outcome(b, ms, freshId, LastRound(p, ms, freshId)) && LastRound(p, ms, freshId).target == Some(t)
  {
    var q, found := LastRound(p, ms, freshId), ms[2].found.value;
    assert q == MoveIdentifier(p, t, ms[2], found, ms[2].value);
    assert MatchOf(b.contacts, ms[2]) && TypedValue(PniSlot, ms[2].value);
    KnownKeepsOthers(b, ms, p, t);
    PniStillWithMatch(b, ms, p.book.contacts, t);
    MoveSpec(p, t, ms[2], found, ms[2].value);
    MoveDone(b, ms, freshId, p, q, t, found, q.book.contacts[t]);
  }

  // ---------------------------------------------------------------- the pni lookup, without a target

  lemma ResolveTwo(p: Progress, found: Id, pni: Option<string>, freshId: Id, u: Match, w: Match)
    ensures
      var (book, target) := Host(p, found, u, pni, freshId);
      var book1 := ApplyChange(book, target, JustPut(u.slot, u.value));
      ResolveUnused(p, found, pni, freshId, [u, w])
      == p.(book := ApplyChange(book1, target, JustPut(w.slot, w.value)), target := Some(target))
  {
    var (book, target) := Host(p, found, u, pni, freshId);
    var q := p.(book := ApplyChange(book, target, JustPut(u.slot, u.value)), target := Some(target));
    assert [u, w][1..] == [w];
    ResolveOne(q, found, pni, freshId, w);
  }

  /** The records an unmatched ACI and an unmatched phone number leave behind on their host. */
  function WithUnused(c: Contact, ms: seq<Match>): Contact
    requires |ms| == 3
  {
    var c := if ms[0].value.Some? then Edited(c, JustPut(ServiceIdSlot, ms[0].value)) else c;
    if ms[1].value.Some? then Edited(c, JustPut(E164Slot, ms[1].value)) else c
  }

  function WithUnusedBook(b: Book, t: Id, ms: seq<Match>): Book
    requires |ms| == 3
  {
    var b := if ms[0].value.Some? then ApplyChange(b, t, JustPut(ServiceIdSlot, ms[0].value)) else b;
    if ms[1].value.Some? then ApplyChange(b, t, JustPut(E164Slot, ms[1].value)) else b
  }

  /** Nobody but `t` holds the identifiers that matched nothing. */
  ghost predicate UnusedFree(cs: map<Id, Contact>, t: Id, ms: seq<Match>)
    requires |ms| == 3 && ms[0].slot == ServiceIdSlot && ms[1].slot == E164Slot
  {
    && TypedValue(ServiceIdSlot, ms[0].value) && TypedValue(E164Slot, ms[1].value)
    && (ms[0].value.Some? ==> forall id :: id in cs && id != t ==> !HeldBy(cs[id], ServiceIdSlot, ms[0].value.value))
    && (ms[1].value.Some? ==> forall id :: id in cs && id != t ==> !HeldBy(cs[id], E164Slot, ms[1].value.value))
  }

  lemma WithUnusedSpec(b: Book, t: Id, ms: seq<Match>)
    requires Valid(b) && t in b.contacts && |ms| == 3 && ms[0].slot == ServiceIdSlot && ms[1].slot == E164Slot
    requires UnusedFree(b.contacts, t, ms)
    ensures Valid(WithUnusedBook(b, t, ms))
    ensures WithUnusedBook(b, t, ms).contacts == b.contacts[t := WithUnused(b.contacts[t], ms)]
  {
    var b1 := b;
    if ms[0].value.Some? {
      AssignSpec(b, t, ServiceIdSlot, ms[0].value);
      b1 := ApplyChange(b, t, JustPut(ServiceIdSlot, ms[0].value));
    }
    if ms[1].value.Some? {
      AssignSpec(b1, t, E164Slot, ms[1].value);
    }
  }

  /** All unused identifiers end up on one host. */
  lemma ResolvedOnHost(b: Book, ms: seq<Match>, freshId: Id, p: Progress, found: Id)
    requires Start(b, ms, freshId) && NoTargetYet(b, ms, p) && (ms[0].value.Some? || ms[1].value.Some?)
    ensures
      var u := if ms[0].value.Some? then ms[0] else ms[1];
      var (book, target) := Host(p, found, u, ms[2].value, freshId);
      var q := ResolveUnused(p, found, ms[2].value, freshId, p.unused);
      q.target == Some(target) && q.merges == [] && q.book == WithUnusedBook(book, target, ms)
  {
    if ms[0].value.None? {
      assert p.unused == [ms[1]];
      ResolveOne(p, found, ms[2].value, freshId, ms[1]);
    } else if ms[1].value.None? {
      assert p.unused == [ms[0]];
      ResolveOne(p, found, ms[2].value, freshId, ms[0]);
    } else {
      assert p.unused == [ms[0], ms[1]];
      ResolveTwo(p, found, ms[2].value, freshId, ms[0], ms[1]);
    }
  }

  lemma UnmatchedAreFree(b: Book, ms: seq<Match>, freshId: Id, t: Id)
    requires Start(b, ms, freshId) && ms[0].found.None? && ms[1].found.None?
    ensures UnusedFree(b.contacts, t, ms)
  {}

  /** The record of the PNI's match once it took the unused identifiers and got its PNI back where it was erased. */
  function HostedRecord(c: Contact, ms: seq<Match>): Contact
    requires |ms| == 3
  {
    var d := WithUnused(c, ms);
    if d.pni.None? then Edited(d, JustPut(PniSlot, ms[2].value)) else d
  }

  lemma HostedResult(b: Book, ms: seq<Match>, freshId: Id, found: Id)
    requires Start(b, ms, freshId) && ms[0].found.None? && ms[1].found.None? && ms[2].found == Some(found)
    requires ms[0].value.Some? ==> CanHost(b.contacts[found], ServiceIdSlot, ms[2].value)
    ensures found in b.contacts && ResultRecord(b, ms, HostedRecord(b.contacts[found], ms))
    ensures KeepsRest(b, ms, found, HostedRecord(b.contacts[found], ms)) && KeepsRest(b, ms, found, b.contacts[found])
    ensures ms[0].value.None? && ms[1].value.None? ==> ResultRecord(b, ms, b.contacts[found])
  {
    assert MatchOf(b.contacts, ms[0]) && MatchOf(b.contacts, ms[1]) && MatchOf(b.contacts, ms[2]);
    var c := b.contacts[found];
    var d := if ms[0].value.Some? then Edited(c, JustPut(ServiceIdSlot, ms[0].value)) else c;
    if ms[0].value.Some? { EditedServiceId(c, ms[0].value.value); }
    if ms[1].value.Some? { EditedE164(d, ms[1].value.value); }
    EditedPni(WithUnused(c, ms), ms[2].value.value);
  }

  lemma RegainPni(cs: map<Id, Contact>, b1: Book, found: Id, c: Contact, m: Match)
    requires Valid(b1) && m.slot == PniSlot && MatchOf(cs, m) && TypedValue(PniSlot, m.value) && m.found == Some(found)
    requires found in cs && b1.contacts == cs[found := c]
    ensures
      var b2 := ApplyChange(b1, found, JustPut(PniSlot, m.value));
      Valid(b2) && b2.contacts == cs[found := Edited(c, JustPut(PniSlot, m.value))]
  {
    AssignSpec(b1, found, PniSlot, m.value);
  }

  lemma HostedBook(b: Book, ms: seq<Match>, found: Id)
    requires |ms| == 3 && ms[0].slot == ServiceIdSlot && ms[1].slot == E164Slot && ms[2].slot == PniSlot
    requires Valid(b) && ms[2].found == Some(found) && found in b.contacts && UnusedFree(b.contacts, found, ms)
    requires MatchOf(b.contacts, ms[2]) && TypedValue(PniSlot, ms[2].value)
    ensures
      var b1 := WithUnusedBook(b, found, ms);
      var b2 := if At(b1, found).pni.None? then ApplyChange(b1, found, JustPut(PniSlot, ms[2].value)) else b1;
      Valid(b2) && b2.contacts == b.contacts[found := HostedRecord(b.contacts[found], ms)]
  {
    WithUnusedSpec(b, found, ms);
    var b1, c := WithUnusedBook(b, found, ms), WithUnused(b.contacts[found], ms);
    if c.pni.None? { RegainPni(b.contacts, b1, found, c, ms[2]); }
  }

  /** The PNI's match becomes the target and takes everything. */
  lemma HostedByMatch(b: Book, ms: seq<Match>, freshId: Id, p: Progress, found: Id)
    requires Start(b, ms, freshId) && NoTargetYet(b, ms, p) && ms[2].found == Some(found)
    requires ms[0].value.Some? ==> CanHost(b.contacts[found], ServiceIdSlot, ms[2].value)
    requires ms[0].value.None? && ms[1].value.Some? ==> CanHost(b.contacts[found], E164Slot, ms[2].value)
    ensures
      var q := LastRound(p, ms, freshId);
      && Valid(q.book) && q.target == Some(found) && q.merges == []
      && (if ms[0].value.Some? || ms[1].value.Some?
          then q.book.contacts == b.contacts[found := HostedRecord(b.contacts[found], ms)]
          else q.book == b)
  {
    if ms[0].value.Some? || ms[1].value.Some? {
      ResolvedOnHost(b, ms, freshId, p, found);
      UnmatchedAreFree(b, ms, freshId, found);
      assert MatchOf(b.contacts, ms[2]) && TypedValue(PniSlot, ms[2].value);
      HostedBook(b, ms, found);
    }
  }

  lemma HostedDone(b: Book, ms: seq<Match>, freshId: Id, q: Progress, found: Id, c: Contact)
    requires |ms| == 3 && ms[0].found.None? && ms[1].found.None? && ms[2].found == Some(found) && found in b.contacts
    requires Valid(q.book) && q.target == Some(found) && q.merges == []
    requires q.book.contacts == b.contacts[found := c] && c.groupId == b.contacts[found].groupId
    requires ResultRecord(b, ms, c) && KeepsRest(b, ms, found, c)
    ensures Outcome(b, ms, freshId, q)
  {}

  lemma HostedOutcome(b: Book, ms: seq<Match>, freshId: Id, p: Progress, found: Id)
    requires Start(b, ms, freshId) && NoTargetYet(b, ms, p) && ms[2].found == Some(found)
    requires ms[0].value.Some? ==> CanHost(b.contacts[found], ServiceIdSlot, ms[2].value)
    requires ms[0].value.None? && ms[1].value.Some? ==> CanHost(b.contacts[found], E164Slot, ms[2].value)
    ensures Outcome(b, ms, freshId, LastRound(p, ms, freshId))
  {
    var q := LastRound(p, ms, freshId);
    HostedByMatch(b, ms, freshId, p, found);
    HostedResult(b, ms, freshId, found);
    var c := if ms[0].value.Some? || ms[1].value.Some? then HostedRecord(b.contacts[found], ms) else b.contacts[found];
    HostedGroup(b.contacts[found], ms);
    assert q.book.contacts == b.contacts[found := c];
    HostedDone(b, ms, freshId, q, found, c);
  }

  lemma HostedGroup(c: Contact, ms: seq<Match>)
    requires |ms| == 3 && ms[2].slot == PniSlot
    ensures HostedRecord(c, ms).groupId == c.groupId
  {}

  /** A newly made conversation with the identifiers that matched nothing. */
  lemma NewHostRecord(ms: seq<Match>, u: Match)
    requires |ms| == 3 && TypedValue(ServiceIdSlot, ms[0].value) && TypedValue(E164Slot, ms[1].value)
    requires u == (if ms[0].value.Some? then ms[0] else ms[1]) && u.value.Some?
    ensures WithUnused(NewContact(u.value.value, Keep, Keep), ms) == Contact(ms[0].value, ms[1].value, None, None)
  {}

  lemma UnusedFreeFrame(cs: map<Id, Contact>, t: Id, c: Contact, ms: seq<Match>)
    requires |ms| == 3 && ms[0].slot == ServiceIdSlot && ms[1].slot == E164Slot && UnusedFree(cs, t, ms)
    ensures UnusedFree(cs[t := c], t, ms)
  {}

  lemma NewHostBook(b: Book, ms: seq<Match>, freshId: Id, u: Match)
    requires |ms| == 3 && ms[0].slot == ServiceIdSlot && ms[1].slot == E164Slot
    requires Valid(b) && freshId !in b.contacts && UnusedFree(b.contacts, freshId, ms)
    requires u == (if ms[0].value.Some? then ms[0] else ms[1]) && u.value.Some?
    requires u.found.None? && MatchOf(b.contacts, u) && u.found == Lookup(b, u.value)
    ensures
      var book := WithUnusedBook(GetOrCreate(b, u.value.value, Keep, Keep, freshId).0, freshId, ms);
      Valid(book) && book.contacts == b.contacts[freshId := Contact(ms[0].value, ms[1].value, None, None)]
  {
    CreatedBook(b, u, freshId);
    NewHostRecord(ms, u);
    var created := GetOrCreate(b, u.value.value, Keep, Keep, freshId).0;
    CreatedGets(b, created, ms, freshId, NewContact(u.value.value, Keep, Keep));
  }

  lemma CreatedGets(b: Book, created: Book, ms: seq<Match>, freshId: Id, c: Contact)
    requires |ms| == 3 && ms[0].slot == ServiceIdSlot && ms[1].slot == E164Slot && UnusedFree(b.contacts, freshId, ms)
    requires Valid(created) && created.contacts == b.contacts[freshId := c]
    ensures Valid(WithUnusedBook(created, freshId, ms))
    ensures WithUnusedBook(created, freshId, ms).contacts == b.contacts[freshId := WithUnused(c, ms)]
  {
    UnusedFreeFrame(b.contacts, freshId, c, ms);
    WithUnusedSpec(created, freshId, ms);
  }

  /** A new conversation is made for the first unused identifier and takes the others. */
  lemma HostedByNew(b: Book, ms: seq<Match>, freshId: Id, p: Progress, found: Id) returns (book: Book)
    requires Start(b, ms, freshId) && NoTargetYet(b, ms, p) && ms[2].found == Some(found)
    requires if ms[0].value.Some? then !CanHost(b.contacts[found], ServiceIdSlot, ms[2].value)
             else ms[1].value.Some? && !CanHost(b.contacts[found], E164Slot, ms[2].value)
    ensures Valid(book) && book.contacts == b.contacts[freshId := Contact(ms[0].value, ms[1].value, None, None)]
    ensures LastRound(p, ms, freshId)
            == MoveIdentifier(Progress(book, Some(freshId), [], []), freshId, ms[2], found, ms[2].value)
  {
    var u := if ms[0].value.Some? then ms[0] else ms[1];
    assert MatchOf(b.contacts, u) && MatchOf(b.contacts, ms[2]);
    ResolvedOnHost(b, ms, freshId, p, found);
    UnmatchedAreFree(b, ms, freshId, freshId);
    NewHostBook(b, ms, freshId, u);
    assert GetOrCreate(b, u.value.value, Keep, Keep, freshId).1 == freshId;
    book := WithUnusedBook(GetOrCreate(b, u.value.value, Keep, Keep, freshId).0, freshId, ms);
  }

  /** The other conversations are as they were, so only the match holds the PNI. */
  lemma NewHostStays(b: Book, ms: seq<Match>, freshId: Id, cs: map<Id, Contact>)
    requires |ms| == 3 && ms[2].slot == PniSlot && MatchOf(b.contacts, ms[2]) && ms[2].value.Some?
    requires freshId !in b.contacts && freshId in cs && cs == b.contacts[freshId := cs[freshId]]
    ensures OthersKept(b, ms, cs, freshId)
    ensures forall id :: id in cs && id != freshId && ms[2].found != Some(id) ==>
        !HeldBy(cs[id], PniSlot, ms[2].value.value)
  {}

  /** The PNI then moves from its conversation to the new one. */
  lemma MoveToNew(cs: map<Id, Contact>, book: Book, freshId: Id, m: Match, found: Id)
    requires Valid(book) && found in cs && freshId !in cs && freshId in book.contacts
    requires book.contacts == cs[freshId := book.contacts[freshId]]
    requires m.slot == PniSlot && m.value.Some? && TypedValue(PniSlot, m.value)
    requires forall id :: id in book.contacts && id != freshId && id != found ==>
        !HeldBy(book.contacts[id], PniSlot, m.value.value)
    ensures
      var q := MoveIdentifier(Progress(book, Some(freshId), [], []), freshId, m, found, m.value);
      var left := Cleared(cs[found], PniSlot, m.value);
      && Valid(q.book) && q.target == Some(freshId)
      && q.book.contacts
         == book.contacts[found := left][freshId := Edited(book.contacts[freshId], JustPut(PniSlot, m.value))]
      && q.merges == if left.Bare() then [Merge(freshId, found)] else []
  {
    MoveSpec(Progress(book, Some(freshId), [], []), freshId, m, found, m.value);
  }

  lemma NewHostOutcome(b: Book, ms: seq<Match>, freshId: Id, p: Progress, found: Id)
    requires Start(b, ms, freshId) && NoTargetYet(b, ms, p) && ms[2].found == Some(found)
    requires if ms[0].value.Some? then !CanHost(b.contacts[found], ServiceIdSlot, ms[2].value)
             else ms[1].value.Some? && !CanHost(b.contacts[found], E164Slot, ms[2].value)
    ensures Outcome(b, ms, freshId, LastRound(p, ms, freshId))
  {
    var book := HostedByNew(b, ms, freshId, p, found);
    var q := LastRound(p, ms, freshId);
    assert MatchOf(b.contacts, ms[2]) && TypedValue(PniSlot, ms[2].value);
    NewHostStays(b, ms, freshId, book.contacts);
    MoveToNew(b.contacts, book, freshId, ms[2], found);
    NewHostFrame(b, ms, freshId, book, q, found);
    ClearedPni(b.contacts[found], ms[2].value);
    EditedPni(Contact(ms[0].value, ms[1].value, None, None), ms[2].value.value);
    NewHostLoses(b, ms, found);
  }

  lemma NewHostFrame(b: Book, ms: seq<Match>, freshId: Id, book: Book, q: Progress, found: Id)
    requires |ms| == 3 && ms[2].found == Some(found) && ms[0].found.None? && ms[1].found.None?
    requires found in b.contacts && freshId !in b.contacts && freshId in q.book.contacts
    requires Valid(book) && OthersKept(b, ms, book.contacts, freshId) && freshId in book.contacts
    requires book.contacts == b.contacts[freshId := book.contacts[freshId]]
    requires
      var left := Cleared(b.contacts[found], PniSlot, ms[2].value);
      && q.book.contacts == book.contacts[found := left][freshId := q.book.contacts[freshId]]
      && q.merges == if left.Bare() then [Merge(freshId, found)] else []
    ensures OthersKept(b, ms, q.book.contacts, freshId) && MergesRight(ms, q.book.contacts, freshId, q.merges)
  {
    var mid := Progress(book, Some(freshId), [], []);
    MovedKeepsOthers(b, ms, mid, q.book.contacts, freshId, found, q.book.contacts[freshId]);
    MovedMergesRight(b, ms, mid, q, freshId, found, q.book.contacts[freshId]);
  }

  lemma NewHostLoses(b: Book, ms: seq<Match>, found: Id)
    requires |ms| == 3 && ms[2].found == Some(found) && found in b.contacts && ms[0].found.None? && ms[1].found.None?
    requires if ms[0].value.Some? then !CanHost(b.contacts[found], ServiceIdSlot, ms[2].value)
             else ms[1].value.Some? && !CanHost(b.contacts[found], E164Slot, ms[2].value)
    ensures !LosesAci(b, ms) && !LosesPni(b, ms)
  {}

  // ---------------------------------------------------------------- nothing matched

  /** A conversation is born with every supplied identifier; the PNI stands in for a missing ACI. */
  lemma BornRecord(ms: seq<Match>, identifier: string)
    requires |ms| == 3 && TypedValue(ServiceIdSlot, ms[0].value) && TypedValue(E164Slot, ms[1].value)
    requires TypedValue(PniSlot, ms[2].value)
    requires Some(identifier)
             == if ms[0].value.Some? then ms[0].value else if ms[2].value.Some? then ms[2].value else ms[1].value
    ensures NewContact(identifier, Put(ms[1].value), Put(ms[2].value))
            == Contact(if ms[0].value.Some? then ms[0].value else ms[2].value, ms[1].value, ms[2].value, None)
  {}

  lemma NobodyHolds(b: Book, ms: seq<Match>, freshId: Id)
    requires Start(b, ms, freshId) && ms[0].found.None? && ms[1].found.None? && ms[2].found.None?
    ensures Free(b.contacts, freshId, ServiceIdSlot, ms[0].value) && Free(b.contacts, freshId, E164Slot, ms[1].value)
    ensures Free(b.contacts, freshId, ServiceIdSlot, ms[2].value) && Free(b.contacts, freshId, PniSlot, ms[2].value)
  {}

  lemma BornOutcome(b: Book, ms: seq<Match>, freshId: Id, identifier: string)
    requires Start(b, ms, freshId) && ms[0].found.None? && ms[1].found.None? && ms[2].found.None?
    requires Some(identifier)
             == if ms[0].value.Some? then ms[0].value else if ms[2].value.Some? then ms[2].value else ms[1].value
    ensures
      var (book, id) := GetOrCreate(b, identifier, Put(ms[1].value), Put(ms[2].value), freshId);
      Outcome(b, ms, freshId, Progress(book, Some(id), [], []))
  {
    NobodyHolds(b, ms, freshId);
    BornRecord(ms, identifier);
    assert Lookup(b, Some(identifier)).None?;
    CreateSpec(b, identifier, Put(ms[1].value), Put(ms[2].value), freshId);
    var (book, id) := GetOrCreate(b, identifier, Put(ms[1].value), Put(ms[2].value), freshId);
    BornDone(b, ms, freshId, Progress(book, Some(id), [], []));
  }

  lemma BornDone(b: Book, ms: seq<Match>, freshId: Id, q: Progress)
    requires |ms| == 3 && ms[0].found.None? && ms[1].found.None? && ms[2].found.None? && freshId !in b.contacts
    requires Valid(q.book) && q.target == Some(freshId) && q.merges == []
    requires
      var aci := if ms[0].value.Some? then ms[0].value else ms[2].value;
      q.book.contacts == b.contacts[freshId := Contact(aci, ms[1].value, ms[2].value, None)]
    ensures Outcome(b, ms, freshId, q)
  {}

  // ---------------------------------------------------------------- the theorem

  /** The state `maybeMergeContacts` ends in, with the conversation it creates when nothing matched. */
  function Final(b: Book, aci: Option<string>, e164: Option<string>, pni: Option<string>, freshId: Id): Progress
    requires Admitted(aci, e164, pni)
  {
    var r := MaybeMergeContacts(b, aci, e164, pni, freshId);
    Progress(r.book, Some(r.conversation), [], r.merges)
  }

  lemma LastRoundOutcome(b: Book, ms: seq<Match>, freshId: Id)
    requires Start(b, ms, freshId)
    requires ms[0].found.Some? || ms[1].found.Some? || ms[2].found.Some?
    ensures Outcome(b, ms, freshId, LastRound(FirstTwo(b, ms, freshId), ms, freshId))
  {
    var p := FirstTwo(b, ms, freshId);
    AfterFirstTwo(b, ms, freshId);
    if p.target.Some? {
      var t := p.target.value;
      if ms[2].found.Some? && ms[2].found.value != t {
        PniFromOther(b, ms, freshId, p, t);
      } else {
        PniToTarget(b, ms, freshId, p, t);
      }
    } else {
      var found := ms[2].found.value;
      var slot: MergeSlot := if ms[0].value.Some? then ServiceIdSlot else E164Slot;
      if (ms[0].value.Some? || ms[1].value.Some?) && !CanHost(b.contacts[found], slot, ms[2].value) {
        NewHostOutcome(b, ms, freshId, p, found);
      } else {
        HostedOutcome(b, ms, freshId, p, found);
      }
    }
  }

  lemma NoMatchNoTarget(b: Book, ms: seq<Match>, freshId: Id)
    requires Start(b, ms, freshId) && ms[0].found.None? && ms[1].found.None? && ms[2].found.None?
    ensures
      var q := LastRound(FirstTwo(b, ms, freshId), ms, freshId);
      q.book == b && q.target.None? && q.merges == []
  {}

  lemma MergeOutcome(b: Book, aci: Option<string>, e164: Option<string>, pni: Option<string>, freshId: Id)
    requires Valid(b) && Supplied(b, aci, e164, pni, freshId) && Admitted(aci, e164, pni)
    ensures Outcome(b, Matches(b, aci, e164, pni), freshId, Final(b, aci, e164, pni, freshId))
  {
    var ms := Matches(b, aci, e164, pni);
    LookupMatch(b, ServiceIdSlot, aci);
    LookupMatch(b, E164Slot, e164);
    LookupMatch(b, PniSlot, pni);
    assert Start(b, ms, freshId);
    ThreeRounds(Progress(b, None, [], []), ms, pni, freshId);
    var q := LastRound(FirstTwo(b, ms, freshId), ms, freshId);
    if ms[0].found.None? && ms[1].found.None? && ms[2].found.None? {
      NoMatchNoTarget(b, ms, freshId);
      BornOutcome(b, ms, freshId, if aci.Some? then aci.value else if pni.Some? then pni.value else e164.value);
    } else {
      LastRoundOutcome(b, ms, freshId);
    }
  }

  lemma GoneWhenLost(b: Book, ms: seq<Match>, freshId: Id, p: Progress, m: Match)
    requires |ms| == 3 && (m == ms[0] || m == ms[2]) && m.slot != E164Slot && MatchOf(b.contacts, m) && m.value.Some?
    requires Outcome(b, ms, freshId, p) && !p.book.contacts[p.target.value].Holds(m.value.value)
    ensures forall id :: id in p.book.contacts ==> !p.book.contacts[id].Holds(m.value.value)
  {}

  lemma StillNotAnId(b: Book, ms: seq<Match>, freshId: Id, p: Progress, v: Option<string>)
    requires |ms| == 3 && Valid(b) && Outcome(b, ms, freshId, p) && NotAnId(b, v) && Some(freshId) != v
    ensures NotAnId(p.book, v)
  {
    if v.Some? && v.value in p.book.byGroupId {
      var id := p.book.byGroupId[v.value];
      assert Owns(p.book.contacts, id, GroupIdSlot, v.value);
      assert id != p.target.value ==> OnlyLoses(b.contacts[id], p.book.contacts[id], ms[2].value);
      assert Owns(b.contacts, id, GroupIdSlot, v.value);
    }
  }

  lemma FoundAci(b: Book, ms: seq<Match>, freshId: Id, p: Progress)
    requires |ms| == 3 && ms[0].slot == ServiceIdSlot && MatchOf(b.contacts, ms[0]) && Valid(b)
    requires Outcome(b, ms, freshId, p) && ms[0].value.Some? && TypedValue(ServiceIdSlot, ms[0].value)
    requires NotAnId(b, ms[0].value) && Some(freshId) != ms[0].value
    ensures Lookup(p.book, ms[0].value) == if LosesAci(b, ms) then None else p.target
  {
    StillNotAnId(b, ms, freshId, p, ms[0].value);
    LookupServiceId(p.book, ms[0].value.value);
    if LosesAci(b, ms) { GoneWhenLost(b, ms, freshId, p, ms[0]); }
  }

  lemma FoundPni(b: Book, ms: seq<Match>, freshId: Id, p: Progress)
    requires |ms| == 3 && ms[2].slot == PniSlot && MatchOf(b.contacts, ms[2]) && Valid(b)
    requires Outcome(b, ms, freshId, p) && ms[2].value.Some? && TypedValue(PniSlot, ms[2].value)
    requires NotAnId(b, ms[2].value) && Some(freshId) != ms[2].value
    ensures Lookup(p.book, ms[2].value) == if LosesPni(b, ms) then None else p.target
  {
    StillNotAnId(b, ms, freshId, p, ms[2].value);
    LookupServiceId(p.book, ms[2].value.value);
    if LosesPni(b, ms) { GoneWhenLost(b, ms, freshId, p, ms[2]); }
  }

  lemma FoundE164(b: Book, ms: seq<Match>, freshId: Id, p: Progress)
    requires |ms| == 3 && ms[1].slot == E164Slot && Valid(b)
    requires Outcome(b, ms, freshId, p) && ms[1].value.Some? && TypedValue(E164Slot, ms[1].value)
    requires NotAnId(b, ms[1].value) && Some(freshId) != ms[1].value
    ensures Lookup(p.book, ms[1].value) == p.target
  {
    StillNotAnId(b, ms, freshId, p, ms[1].value);
    LookupE164(p.book, ms[1].value.value);
  }

  /**
   On any valid store, `get` of each supplied identifier returns the conversation that
   `maybeMergeContacts` returned - unless `LosesAci` or `LosesPni` holds, and then that
   identifier is in the store no more. The store is valid again in every case. It throws
   exactly if nothing is supplied or a PNI is supplied as ACI.
   */
  lemma MergeFindsResult(b: Book, aci: Option<string>, e164: Option<string>, pni: Option<string>, freshId: Id)
    requires Valid(b) && Supplied(b, aci, e164, pni, freshId)
    ensures
      var r := MaybeMergeContacts(b, aci, e164, pni, freshId);
      var ms := Matches(b, aci, e164, pni);
      && (r.Merged? <==> (aci.Some? || e164.Some? || pni.Some?) && (aci.Some? ==> !("PNI:" <= aci.value)))
      && (r.Merged? ==>
            && Valid(r.book) && r.conversation in r.book.contacts
            && (e164.Some? ==> Lookup(r.book, e164) == Some(r.conversation))
            && (aci.Some? ==> Lookup(r.book, aci) == if LosesAci(b, ms) then None else Some(r.conversation))
            && (pni.Some? ==> Lookup(r.book, pni) == if LosesPni(b, ms) then None else Some(r.conversation)))
  {
    if Admitted(aci, e164, pni) {
      var ms := Matches(b, aci, e164, pni);
      var p := Final(b, aci, e164, pni, freshId);
      MergeOutcome(b, aci, e164, pni, freshId);
      LookupMatch(b, ServiceIdSlot, aci);
      LookupMatch(b, PniSlot, pni);
      if e164.Some? { FoundE164(b, ms, freshId, p); }
      if aci.Some? { FoundAci(b, ms, freshId, p); }
      if pni.Some? { FoundPni(b, ms, freshId, p); }
    }
  }
}
