/** Which conversation a merge returns: the choice among matches, independent of what is moved where. */
module ContactMergeChoice {
  import opened Wrappers
  import opened ContactBook
  import opened ContactMerge
  import opened ContactMergeProofs

  /**
   The match of the ACI, else that of the phone number, else that of the PNI. A later match is taken for an ACI that
   matched nothing only if no other ACI stands in its way: it has no service id, or its own PNI or the supplied one
   in that slot; and for a phone number that matched nothing only if it has none. Else a new conversation is made.
   */
  function Chosen(b: Book, ms: seq<Match>, freshId: Id): Id
    requires |ms| == 3
  {
    if ms[0].found.Some? then ms[0].found.value
    else if ms[1].found.Some? then
      var c := At(b, ms[1].found.value);
      if ms[0].value.None? || c.serviceId.None? || c.serviceId == c.pni || c.serviceId == ms[2].value
      then ms[1].found.value
      else freshId
    else if ms[2].found.Some? then
      var c := At(b, ms[2].found.value);
      if ms[0].value.Some? then
        if c.serviceId.None? || c.serviceId == c.pni || c.serviceId == ms[2].value then ms[2].found.value else freshId
      else if ms[1].value.Some? && c.e164.Some? then freshId
      else ms[2].found.value
    else freshId
  }

  lemma TargetAfterTwo(b: Book, ms: seq<Match>, freshId: Id)
    requires Start(b, ms, freshId) && (ms[0].found.Some? || ms[1].found.Some?)
    ensures TargetKnown(b, ms, freshId, FirstTwo(b, ms, freshId), Chosen(b, ms, freshId))
  {
    if ms[0].found.Some? {
      if ms[1].found.None? && ms[1].value.Some? {
        AciMatchedNewE164(b, ms, freshId);
      } else if ms[1].found.Some? && ms[0].found != ms[1].found {
        AciMatchedOtherE164(b, ms, freshId);
      } else {
        AciMatched(b, ms, freshId);
      }
    } else if ms[0].value.Some? {
      assert MatchOf(b.contacts, ms[1]);
      if CanHost(b.contacts[ms[1].found.value], ServiceIdSlot, ms[2].value) {
        AciHosted(b, ms, freshId);
      } else {
        AciCreated(b, ms, freshId);
      }
    } else {
      AfterFirstTwo(b, ms, freshId);
    }
  }

  /** A conversation that is the target stays the target. */
  lemma TargetStays(b: Book, ms: seq<Match>, freshId: Id, p: Progress, t: Id)
    requires Start(b, ms, freshId) && TargetKnown(b, ms, freshId, p, t)
    requires ms[0].found.Some? ==> ms[0].found.value == t
    ensures LastRound(p, ms, freshId).target == Some(t)
  {
    if ms[2].found.Some? && ms[2].found.value != t {
      PniFromOther(b, ms, freshId, p, t);
    } else {
      PniToTarget(b, ms, freshId, p, t);
    }
  }

  lemma TargetOfPni(b: Book, ms: seq<Match>, freshId: Id)
    requires Start(b, ms, freshId) && ms[0].found.None? && ms[1].found.None? && ms[2].found.Some?
    ensures LastRound(FirstTwo(b, ms, freshId), ms, freshId).target == Some(Chosen(b, ms, freshId))
  {
    var p, found := FirstTwo(b, ms, freshId), ms[2].found.value;
    AfterFirstTwo(b, ms, freshId);
    assert MatchOf(b.contacts, ms[2]);
    if Chosen(b, ms, freshId) == found {
      HostedByMatch(b, ms, freshId, p, found);
    } else {
      var book := HostedByNew(b, ms, freshId, p, found);
    }
  }

  /** The result of `maybeMergeContacts` is the chosen conversation, whatever is cleared or merged on the way. */
  lemma ResultIsChosen(b: Book, aci: Option<string>, e164: Option<string>, pni: Option<string>, freshId: Id)
    requires Valid(b) && Supplied(b, aci, e164, pni, freshId) && Admitted(aci, e164, pni)
    ensures
      var r := MaybeMergeContacts(b, aci, e164, pni, freshId);
      r.Merged? && r.conversation == Chosen(b, Matches(b, aci, e164, pni), freshId)
  {
    var ms := Matches(b, aci, e164, pni);
    LookupMatch(b, ServiceIdSlot, aci);
    LookupMatch(b, E164Slot, e164);
    LookupMatch(b, PniSlot, pni);
    assert Start(b, ms, freshId);
    ThreeRounds(Progress(b, None, [], []), ms, pni, freshId);
    if ms[0].found.Some? || ms[1].found.Some? {
      TargetAfterTwo(b, ms, freshId);
      TargetStays(b, ms, freshId, FirstTwo(b, ms, freshId), Chosen(b, ms, freshId));
    } else if ms[2].found.Some? {
      TargetOfPni(b, ms, freshId);
    } else {
      NoMatchNoTarget(b, ms, freshId);
    }
  }

  /** The result gains what was supplied and keeps the rest; a new phone number erases a PNI that was not supplied. */
  lemma ResultKeepsRest(b: Book, aci: Option<string>, e164: Option<string>, pni: Option<string>, freshId: Id)
    requires Valid(b) && Supplied(b, aci, e164, pni, freshId) && Admitted(aci, e164, pni)
    ensures
      var r := MaybeMergeContacts(b, aci, e164, pni, freshId);
      && r.Merged? && r.conversation in r.book.contacts
      && (r.conversation !in b.contacts ==> r.conversation == freshId)
      && (r.conversation in b.contacts ==>
            var was, now := b.contacts[r.conversation], r.book.contacts[r.conversation];
            var samePhone := e164.None? || e164 == was.e164;
            && now.groupId == was.groupId && now.e164 == (if e164.Some? then e164 else was.e164)
            && (pni.None? && samePhone ==> now.pni == was.pni && (aci.None? ==> now == was))
            && (pni.None? && !samePhone ==> now.pni.None?)
            && (aci.None? && was.serviceId.Some? && was.serviceId != was.pni && was.serviceId != pni ==>
                  now.serviceId == was.serviceId))
  {
    MergeOutcome(b, aci, e164, pni, freshId);
  }
}
