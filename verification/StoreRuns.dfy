/** Runs of the store: it refines a database with one current view, and never accepts a kyber triple twice. */
module StoreRuns {
  import opened Wrappers
  import opened KeyIds
  import opened StoreState
  import opened StoreProofs

  /** `supported` says whether the zone holds such writes back, `ok` whether a write to the database succeeds. */
  datatype Op =
    | PutSession(id: string, session: Session, supported: bool, ok: bool)
    | PutSenderKey(id: string, key: string, supported: bool, ok: bool)
    | PutUnprocessed(id: string, item: string, supported: bool, ok: bool)
    | DropPreKeys(ids: set<string>, supported: bool, ok: bool)
    | DropKyberPreKeys(ids: set<string>, supported: bool, ok: bool)
    | UseKyberPreKey(serviceId: string, keyId: nat, signedPreKeyId: nat, baseKey: seq<Byte>, supported: bool, ok: bool)
    | EndCommit(ok: bool)
    | EndRevert
    | DeleteSession(id: string, ok: bool)
    | DeleteSenderKey(id: string, ok: bool)
    | AddPreKeys(preKeys: Keys<PreKey>, ok: bool)
    | AddKyberPreKeys(kyberPreKeys: Keys<KyberPreKey>, ok: bool)
    | ForgetOldPni(pni: string)
    | Restart

  /** Ids are made by `#_getKeyId` from well-formed service ids. */
  ghost predicate Legal(op: Op) {
    match op
    case DropKyberPreKeys(ids, _, _) => forall id <- ids :: IsKey(id)
    case UseKyberPreKey(serviceId, _, _, _, _, _) => WellFormed(serviceId)
    case AddPreKeys(keys, _) => forall id :: id in keys ==> KeyOf(id, keys[id].ourServiceId)
    case AddKyberPreKeys(keys, _) => forall id :: id in keys ==> KeyOf(id, keys[id].ourServiceId)
    case ForgetOldPni(pni) => WellFormed(pni)
    case _ => true
  }

  function TripleOf(op: Op): Triple
    requires op.UseKyberPreKey?
  {
    Triple(KeyId(op.serviceId, op.keyId), op.signedPreKeyId, op.baseKey)
  }

  /** A use of a last-resort key that will be refused. */
  predicate Remembered(st: Store, t: Triple) {
    TripleKey(t) in st.cache.kyberTriples || TripleKey(t) in st.pending.kyberTriples
  }

  ghost function Verdict(st: Store, op: Op): StoreState.Verdict
    requires op.UseKyberPreKey?
  {
    MaybeRemoveKyberPreKey(st, op.serviceId, op.keyId, op.signedPreKeyId, op.baseKey, op.supported, op.ok).1
  }

  /** What an operation in a zone adds to the pending writes. */
  function Staged(st: Store, op: Op): Pending {
    match op
    case PutSession(id, session, _, _) => StoreState.PutSession(st.pending, id, session)
    case PutSenderKey(id, key, _, _) => StoreState.PutSenderKey(st.pending, id, key)
    case PutUnprocessed(id, item, _, _) => StoreState.PutUnprocessed(st.pending, id, item)
    case DropPreKeys(ids, _, _) => StoreState.DropPreKeys(st.pending, ids)
    case DropKyberPreKeys(ids, _, _) => StoreState.DropKyberPreKeys(st.pending, ids)
    case UseKyberPreKey(serviceId, keyId, _, _, _, _) =>
      var id := KeyId(serviceId, keyId);
      if id !in st.cache.kyberPreKeys then st.pending
      else if !st.cache.kyberPreKeys[id].isLastResort then StoreState.DropKyberPreKeys(st.pending, {id})
      else if Remembered(st, TripleOf(op)) then st.pending
      else PutTriple(st.pending, TripleOf(op))
    case _ => st.pending
  }

  /** Whether it ends in a commit of what is staged. */
  predicate Commits(st: Store, op: Op) {
    match op
    case PutSession(_, _, supported, _) => !supported
    case PutSenderKey(_, _, supported, _) => !supported
    case PutUnprocessed(_, _, supported, _) => !supported
    case DropPreKeys(_, supported, _) => !supported
    case DropKyberPreKeys(_, supported, _) => !supported
    case UseKyberPreKey(serviceId, keyId, _, _, supported, _) =>
      var id := KeyId(serviceId, keyId);
      && !supported && id in st.cache.kyberPreKeys
      && (st.cache.kyberPreKeys[id].isLastResort ==> !Remembered(st, TripleOf(op)))
    case EndCommit(_) => true
    case _ => false
  }

  predicate ZoneOp(op: Op) {
    op.PutSession? || op.PutSenderKey? || op.PutUnprocessed? || op.DropPreKeys? || op.DropKyberPreKeys?
    || op.UseKyberPreKey? || op.EndCommit?
  }

  ghost function Do(st: Store, op: Op): Store {
    match op
    case EndRevert => Revert(st)
    case DeleteSession(id, ok) => RemoveSession(st, id, ok)
    case DeleteSenderKey(id, ok) => RemoveSenderKey(st, id, ok)
    case AddPreKeys(keys, ok) => StorePreKeys(st, keys, ok).0
    case AddKyberPreKeys(keys, ok) => StoreKyberPreKeys(st, keys, ok).0
    case ForgetOldPni(pni) => RemoveOurOldPni(st, pni)
    case Restart => StoreState.Restart(st)
    case _ =>
      var staged := st.(pending := Staged(st, op));
      if Commits(st, op) then Commit(staged, op.ok).0 else staged
  }

  /** The function the method is proved against is this staging. */
  lemma UseIsStaged(st: Store, op: Op)
    requires op.UseKyberPreKey?
    ensures
      Do(st, op)
      == MaybeRemoveKyberPreKey(st, op.serviceId, op.keyId, op.signedPreKeyId, op.baseKey, op.supported, op.ok).0
  {}

  // ---------------------------------------------------------------- the invariant over runs

  lemma StagedKeepsInv(st: Store, op: Op)
    requires Inv(st) && Legal(op)
    ensures Inv(st.(pending := Staged(st, op)))
  {
    if op.UseKyberPreKey? {
      assert IsKeyId(KeyId(op.serviceId, op.keyId), op.serviceId, op.keyId);
      assert KeyOf(KeyId(op.serviceId, op.keyId), op.serviceId);
    }
  }

  lemma OwnedByPrefix<T>(m: Keys<T>, owner: T -> string, pni: string)
    requires WellFormed(pni) && forall id :: id in m ==> KeyOf(id, owner(m[id]))
    ensures OwnedBy(m.Keys, pni) == set id | id in m && owner(m[id]) == pni
  {
    forall id | id in m
      ensures pni + ":" <= id <==> owner(m[id]) == pni
    {
      var n :| IsKeyId(id, owner(m[id]), n);
      PniPrefixExact(pni, owner(m[id]), n);
    }
  }

  /** `removeOurOldPni` removes from cache and database the very same keys. */
  lemma ForgetKeepsInv(st: Store, pni: string)
    requires Inv(st) && WellFormed(pni)
    ensures Inv(RemoveOurOldPni(st, pni))
    ensures
      var r := RemoveOurOldPni(st, pni);
      && (forall id ::
            id in r.cache.kyberPreKeys <==> id in st.cache.kyberPreKeys && st.db.kyberPreKeys[id].ourServiceId != pni)
      && (forall id :: id in r.cache.preKeys <==> id in st.cache.preKeys && st.db.preKeys[id].ourServiceId != pni)
  {
    OwnedByPrefix(st.db.kyberPreKeys, (k: KyberPreKey) => k.ourServiceId, pni);
    OwnedByPrefix(st.db.preKeys, (k: PreKey) => k.ourServiceId, pni);
  }

  lemma DoKeepsInv(st: Store, op: Op)
    requires Inv(st) && Legal(op)
    ensures Inv(Do(st, op))
  {
    if ZoneOp(op) {
      StagedKeepsInv(st, op);
      if Commits(st, op) { CommitIsAtomic(st.(pending := Staged(st, op)), op.ok); }
    } else if op.ForgetOldPni? {
      ForgetKeepsInv(st, op.pni);
    } else if op.Restart? {
      HydratedInv(st.db, Triple("", 0, []));
    }
  }

  ghost function Run(st: Store, ops: seq<Op>): Store
    decreases |ops|
  {
    if ops == [] then st else Run(Do(st, ops[0]), ops[1..])
  }

  /** Over every run: caches mirror the database and every load answers from database and pending writes. */
  lemma {:induction false} RunKeepsInv(st: Store, ops: seq<Op>, id: string)
    requires Inv(st) && forall op <- ops :: Legal(op)
    ensures
      var r := Run(st, ops);
      var view := Overlay(r.db, r.pending);
      && Inv(r)
      && LoadSession(r, id) == Find(view.sessions, id) && GetSenderKey(r, id) == Find(view.senderKeys, id)
      && LoadPreKey(r, id) == Find(view.preKeys, id) && LoadKyberPreKey(r, id) == Find(view.kyberPreKeys, id)
    decreases |ops|
  {
    if ops == [] {
      LoadsSeeOverlay(st, id);
    } else {
      DoKeepsInv(st, ops[0]);
      RunKeepsInv(Do(st, ops[0]), ops[1..], id);
    }
  }

  // ---------------------------------------------------------------- a zone is atomic

  predicate HeldBack(op: Op) {
    match op
    case PutSession(_, _, supported, _) => supported
    case PutSenderKey(_, _, supported, _) => supported
    case PutUnprocessed(_, _, supported, _) => supported
    case DropPreKeys(_, supported, _) => supported
    case DropKyberPreKeys(_, supported, _) => supported
    case UseKyberPreKey(_, _, _, _, supported, _) => supported
    case _ => false
  }

  lemma {:induction false} HeldBackTouchesNothing(st: Store, ops: seq<Op>)
    requires forall op <- ops :: HeldBack(op)
    ensures Run(st, ops).db == st.db && Run(st, ops).cache == st.cache
    decreases |ops|
  {
    if ops != [] {
      assert HeldBack(ops[0]) && !Commits(st, ops[0]);
      HeldBackTouchesNothing(Do(st, ops[0]), ops[1..]);
    }
  }

  /** A transaction whose writes are all held back reaches the database as a whole or not at all. */
  lemma ZoneIsAtomic(st: Store, ops: seq<Op>, ok: bool)
    requires Inv(st) && st.pending == NothingPending && forall op <- ops :: Legal(op) && HeldBack(op)
    ensures
      var end := Run(st, ops);
      var r := Do(end, EndCommit(ok));
      && (Committable(end, ok) ==> r.db == Overlay(st.db, end.pending))
      && (!Committable(end, ok) ==> r.db == st.db && r.cache == st.cache)
      && Do(end, EndRevert).db == st.db && Do(end, EndRevert).cache == st.cache
  {
    RunKeepsInv(st, ops, "");
    HeldBackTouchesNothing(st, ops);
    CommitIsAtomic(Run(st, ops), ok);
  }

  // ---------------------------------------------------------------- kyber triples

  /** A commit this operation makes removes the key. */
  ghost predicate RemovesKey(st: Store, op: Op, id: string) {
    Commits(st, op) && id in Staged(st, op).kyberPreKeysToRemove
  }

  ghost predicate FailsToCommit(st: Store, op: Op) {
    Commits(st, op) && !Committable(st.(pending := Staged(st, op)), op.ok)
  }

  lemma StagedRemembers(st: Store, op: Op, t: Triple)
    requires Remembered(st, t)
    ensures Remembered(st.(pending := Staged(st, op)), t)
  {}

  lemma CommitRemembers(st: Store, ok: bool, t: Triple)
    requires Inv(st) && Remembered(st, t) && IsKey(t.id) && Committable(st, ok)
    requires t.id !in st.pending.kyberPreKeysToRemove
    ensures Remembered(Commit(st, ok).0, t)
  {
    CommitIsAtomic(st, ok);
    InsertableIff(st);
    PrefixMatchesCascade(st.pending.kyberPreKeysToRemove, t);
  }

  lemma StepRemembers(st: Store, op: Op, t: Triple)
    requires Inv(st) && Legal(op) && Remembered(st, t) && IsKey(t.id)
    requires !FailsToCommit(st, op) && !RemovesKey(st, op, t.id) && (op.Restart? ==> t in st.db.triples)
    ensures Remembered(Do(st, op), t)
  {
    if ZoneOp(op) {
      StagedKeepsInv(st, op);
      StagedRemembers(st, op, t);
      if Commits(st, op) { CommitRemembers(st.(pending := Staged(st, op)), op.ok, t); }
    }
  }

  /** No commit of the run fails, none removes the key, and no restart comes before the use is in the table. */
  ghost predicate Undisturbed(st: Store, ops: seq<Op>, t: Triple)
    decreases |ops|
  {
    ops == []
    || (Legal(ops[0]) && !FailsToCommit(st, ops[0]) && !RemovesKey(st, ops[0], t.id)
       && (ops[0].Restart? ==> t in st.db.triples) && Undisturbed(Do(st, ops[0]), ops[1..], t))
  }

  lemma UseNamesKey(use: Op)
    requires use.UseKyberPreKey? && Legal(use)
    ensures IsKey(TripleOf(use).id)
  {
    assert IsKeyId(KeyId(use.serviceId, use.keyId), use.serviceId, use.keyId);
    assert KeyOf(KeyId(use.serviceId, use.keyId), use.serviceId);
  }

  /** Once accepted, the same use of a last-resort key is refused from then on, for as long as the key is there. */
  lemma {:induction false} NeverAcceptedTwice(st: Store, ops: seq<Op>, use: Op)
    requires Inv(st) && use.UseKyberPreKey? && Legal(use) && Remembered(st, TripleOf(use))
    requires Undisturbed(st, ops, TripleOf(use))
    ensures
      var v := Verdict(Run(st, ops), use);
      v != StoreState.Accepted
    ensures
      var r := Run(st, ops);
      var id := KeyId(use.serviceId, use.keyId);
      id in r.cache.kyberPreKeys && r.cache.kyberPreKeys[id].isLastResort ==> Verdict(r, use) == StoreState.Duplicate
    decreases |ops|
  {
    if ops != [] {
      UseNamesKey(use);
      StepRemembers(st, ops[0], TripleOf(use));
      DoKeepsInv(st, ops[0]);
      NeverAcceptedTwice(Do(st, ops[0]), ops[1..], use);
    }
  }

  /** The key is in the table all along. */
  ghost predicate KeyStays(st: Store, ops: seq<Op>, id: string)
    decreases |ops|
  {
    id in st.db.kyberPreKeys && (ops != [] ==> Legal(ops[0]) && KeyStays(Do(st, ops[0]), ops[1..], id))
  }

  lemma StoredUseStays(st: Store, op: Op, t: Triple)
    requires Inv(st) && Legal(op) && t in st.db.triples && t.id in Do(st, op).db.kyberPreKeys
    ensures t in Do(st, op).db.triples
  {
    if ZoneOp(op) && Commits(st, op) {
      StagedKeepsInv(st, op);
      var staged := st.(pending := Staged(st, op));
      CommitIsAtomic(staged, op.ok);
      NothingOverlaid(st.db);
    } else if op.ForgetOldPni? {
      UsesAfterForget(st, op.pni, t);
    }
  }

  /**
   A use that is in the table is refused for as long as its key stays there, whatever fails, whatever is reverted or
   removed, and however often the application is started anew.
   */
  lemma {:induction false} StoredUseIsRefused(st: Store, ops: seq<Op>, use: Op)
    requires Inv(st) && use.UseKyberPreKey? && Legal(use) && TripleOf(use) in st.db.triples
    requires KeyStays(st, ops, TripleOf(use).id)
    ensures
      var r := Run(st, ops);
      && TripleOf(use) in r.db.triples && TripleOf(use).id in r.cache.kyberPreKeys
      && (r.cache.kyberPreKeys[TripleOf(use).id].isLastResort ==> Verdict(r, use) == StoreState.Duplicate)
    decreases |ops|
  {
    if ops != [] {
      DoKeepsInv(st, ops[0]);
      StoredUseStays(st, ops[0], TripleOf(use));
      StoredUseIsRefused(Do(st, ops[0]), ops[1..], use);
    }
  }

  /** A new start knows exactly the uses in the table; those still pending would be accepted again. */
  lemma RestartKnowsStored(st: Store, t: Triple)
    requires Inv(st)
    ensures Remembered(Do(st, Restart), t) <==> t in st.db.triples
  {
    HydratedInv(st.db, t);
  }

  /** A successful commit puts every pending use in the table. */
  lemma CommitStores(st: Store, ok: bool, t: Triple)
    requires Inv(st) && Committable(st, ok) && TripleKey(t) in st.pending.kyberTriples
    ensures t in Do(st, EndCommit(ok)).db.triples
  {
    TripleKeyInjective(st.pending.kyberTriples[TripleKey(t)], t);
    UsesAfterCommit(st, ok, t);
  }

  /** What is accepted is remembered, unless the zone commits at once and that fails. */
  lemma AcceptedIsRemembered(st: Store, use: Op)
    requires Inv(st) && use.UseKyberPreKey? && Legal(use) && Verdict(st, use) == StoreState.Accepted
    ensures Remembered(Do(st, use), TripleOf(use))
  {
    UseNamesKey(use);
    StagedKeepsInv(st, use);
    var staged := st.(pending := Staged(st, use));
    if Commits(st, use) {
      CommitIsAtomic(staged, use.ok);
      assert TripleOf(use) in Overlay(staged.db, staged.pending).triples;
      CommitRemembers(staged, use.ok, TripleOf(use));
    }
  }

  /** After a failed commit a pending use is forgotten: the same triple will be accepted again. */
  lemma FailedCommitForgets(st: Store, ok: bool, k: string)
    requires Inv(st) && k in st.pending.kyberTriples && !Committable(st, ok)
    ensures !Remembered(Commit(st, ok).0, st.pending.kyberTriples[k])
  {}

  /**
   A use that was reverted stays pending, so the next commit that removes its key fails. That commit
   discards the leftover too: the same removal tried again goes through.
   */
  lemma LeftoverBlocksRemovalOnce(st: Store, k: string, ok: bool)
    requires Inv(st) && k in st.pending.kyberTriples
    ensures
      var id := st.pending.kyberTriples[k].id;
      var (failed, done) := Commit(Removing(Revert(st), id), ok);
      var (r, doneAgain) := Commit(Removing(failed, id), true);
      && !done && failed.db == st.db && failed.cache == st.cache && failed.pending == NothingPending
      && doneAgain && id !in r.db.kyberPreKeys && id !in r.cache.kyberPreKeys
      && r.db.triples == Cascade(st.db.triples, {id})
  {
    var id := st.pending.kyberTriples[k].id;
    var first := Removing(Revert(st), id);
    var failed := Commit(first, ok).0;
    assert first.pending.kyberTriples[k].id == id && !Insertable(first.db, first.pending);
    var second := Removing(failed, id);
    assert second.pending.kyberTriples == map[] && Insertable(second.db, second.pending);
  }

  function Removing(st: Store, id: string): Store { st.(pending := StoreState.DropKyberPreKeys(st.pending, {id})) }

  // ---------------------------------------------------------------- writes that bypass the zone

  /** `removeSenderKey` removes the key from every load exactly if no write of it is pending. */
  lemma RemoveSenderKeyIff(st: Store, id: string)
    requires Inv(st)
    ensures GetSenderKey(RemoveSenderKey(st, id, true), id).None? <==> id !in st.pending.senderKeys
  {}
}
