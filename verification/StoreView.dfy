/** The store with its caches and pending writes refines, over whole runs, a database with one current view of it. */
module StoreView {
  import opened Wrappers
  import opened KeyIds
  import opened StoreState
  import opened StoreProofs
  import opened StoreRuns

  /**
   The simple form: the database, the tables as the current zone has them, the uses of last-resort
   keys known for good, and what the zone is about to remove or has written of the sender keys.
   */
  datatype View = View(
    db: Tables,
    now: Tables,
    known: set<string>,
    kyberGone: set<string>,
    preKeysGone: set<string>,
    senderKeysHeld: set<string>)
  {
    /** Uses the zone has noted but the database has not. */
    function NewUses(): set<Triple> { now.triples - db.triples }

    predicate Refuses(t: Triple) { TripleKey(t) in known || t in NewUses() }

    /** The zone's work is over, for better or worse. */
    function Settled(tables: Tables, known: set<string>): View { View(tables, tables, known, {}, {}, {}) }
  }

  function ViewOf(st: Store): View {
    View(st.db, Overlay(st.db, st.pending), st.cache.kyberTriples,
         st.pending.kyberPreKeysToRemove, st.pending.preKeysToRemove, st.pending.senderKeys.Keys)
  }

  function KeysOf(uses: set<Triple>): set<string> { set t | t in uses :: TripleKey(t) }

  /** A commit takes over what the zone has if that keeps the foreign key; else the zone's writes are lost. */
  ghost function ViewCommit(v: View, ok: bool): View {
    if ok && Referential(v.now) then v.Settled(v.now, WithoutPrefixes(v.known + KeysOf(v.NewUses()), v.kyberGone))
    else v.Settled(v.db, v.known)
  }

  /** A revert goes back to the database, but the new uses stay. */
  function ViewRevert(v: View): View {
    v.Settled(v.db, v.known).(now := v.db.(triples := v.db.triples + v.NewUses()))
  }

  /** Removing keys takes the stored triples with them, not those still pending. */
  function DropKyber(v: View, ids: set<string>): View {
    v.(now := v.now.(kyberPreKeys := v.now.kyberPreKeys - ids,
                      triples := Cascade(v.now.triples * v.db.triples, ids) + v.NewUses()),
       kyberGone := v.kyberGone + ids)
  }

  /** What an operation in a zone writes. */
  function Written(v: View, op: Op): View {
    match op
    case PutSession(id, session, _, _) => v.(now := v.now.(sessions := v.now.sessions[id := session]))
    case PutSenderKey(id, key, _, _) =>
      v.(now := v.now.(senderKeys := v.now.senderKeys[id := key]), senderKeysHeld := v.senderKeysHeld + {id})
    case PutUnprocessed(id, item, _, _) => v.(now := v.now.(unprocessed := v.now.unprocessed[id := item]))
    case DropPreKeys(ids, _, _) => v.(now := v.now.(preKeys := v.now.preKeys - ids), preKeysGone := v.preKeysGone + ids)
    case DropKyberPreKeys(ids, _, _) => DropKyber(v, ids)
    case UseKyberPreKey(serviceId, keyId, _, _, _, _) =>
      var id := KeyId(serviceId, keyId);
      if id !in v.db.kyberPreKeys then v
      else if !v.db.kyberPreKeys[id].isLastResort then DropKyber(v, {id})
      else if v.Refuses(TripleOf(op)) then v
      else v.(now := v.now.(triples := v.now.triples + {TripleOf(op)}))
    case _ => v
  }

  predicate ViewCommits(v: View, op: Op) {
    match op
    case EndCommit(_) => true
    case UseKyberPreKey(serviceId, keyId, _, _, supported, _) =>
      var id := KeyId(serviceId, keyId);
      && !supported && id in v.db.kyberPreKeys
      && (v.db.kyberPreKeys[id].isLastResort ==> !v.Refuses(TripleOf(op)))
    case _ => ZoneOp(op) && !HeldBack(op)
  }

  /** What an operation past the zones writes, to the database and under what the zone has. */
  function WrittenThrough(v: View, op: Op): View {
    match op
    case DeleteSession(id, ok) =>
      if !ok then v
      else v.(db := v.db.(sessions := v.db.sessions - {id}), now := v.now.(sessions := v.now.sessions - {id}))
    case DeleteSenderKey(id, ok) =>
      if !ok then v
      else
        v.(db := v.db.(senderKeys := v.db.senderKeys - {id}),
           now := v.now.(senderKeys := v.now.senderKeys - ({id} - v.senderKeysHeld)))
    case AddPreKeys(keys, ok) =>
      if !ok || !(keys.Keys !! v.db.preKeys.Keys) then v
      else
        v.(db := v.db.(preKeys := v.db.preKeys + keys),
           now := v.now.(preKeys := v.now.preKeys + (keys - v.preKeysGone)))
    case AddKyberPreKeys(keys, ok) =>
      if !ok || !(keys.Keys !! v.db.kyberPreKeys.Keys) then v
      else
        v.(db := v.db.(kyberPreKeys := v.db.kyberPreKeys + keys),
           now := v.now.(kyberPreKeys := v.now.kyberPreKeys + (keys - v.kyberGone)))
    case Restart => v.Settled(v.db, KeysOf(v.db.triples))
    case ForgetOldPni(pni) =>
      var kyber, pre := KyberPreKeysOf(v.db, pni), PreKeysOf(v.db, pni);
      v.(db := WithoutOwned(v.db, kyber, pre, Cascade(v.db.triples, kyber)),
         now := WithoutOwned(v.now, kyber, pre, Cascade(v.now.triples * v.db.triples, kyber) + v.NewUses()))
    case _ => v
  }

  function WithoutOwned(t: Tables, kyber: set<string>, pre: set<string>, triples: set<Triple>): Tables {
    t.(kyberPreKeys := t.kyberPreKeys - kyber, preKeys := t.preKeys - pre, triples := triples)
  }

  /** One operation on the simple form. */
  ghost function ViewDo(v: View, op: Op): View {
    if op.EndRevert? then ViewRevert(v)
    else if !ZoneOp(op) then WrittenThrough(v, op)
    else if ViewCommits(v, op) then ViewCommit(Written(v, op), op.ok)
    else Written(v, op)
  }

  ghost function ViewRun(v: View, ops: seq<Op>): View
    decreases |ops|
  {
    if ops == [] then v else ViewRun(ViewDo(v, ops[0]), ops[1..])
  }

  /** What the use of a kyber prekey is answered. */
  ghost function ViewVerdict(v: View, op: Op): StoreState.Verdict
    requires op.UseKyberPreKey?
  {
    var id := KeyId(op.serviceId, op.keyId);
    var done := op.supported || (op.ok && Referential(Written(v, op).now));
    if id !in v.db.kyberPreKeys then NoSuchKey
    else if !v.db.kyberPreKeys[id].isLastResort then if done then Removed else CommitFailed
    else if v.Refuses(TripleOf(op)) then Duplicate
    else if done then Accepted
    else CommitFailed
  }

  // ---------------------------------------------------------------- the zone's own uses

  lemma NewUsesArePending(st: Store)
    requires Inv(st)
    ensures ViewOf(st).NewUses() == st.pending.kyberTriples.Values
    ensures KeysOf(ViewOf(st).NewUses()) == st.pending.kyberTriples.Keys
  {
    var v := ViewOf(st);
    forall k | k in st.pending.kyberTriples
      ensures st.pending.kyberTriples[k] in v.NewUses() && TripleKey(st.pending.kyberTriples[k]) == k
    {
      PendingTriplesAreNew(st, k);
    }
    forall t | t in v.NewUses()
      ensures TripleKey(t) in st.pending.kyberTriples
    {
      var k :| k in st.pending.kyberTriples && st.pending.kyberTriples[k] == t;
    }
  }

  lemma RefusesRemembered(st: Store, t: Triple)
    requires Inv(st)
    ensures ViewOf(st).Refuses(t) <==> Remembered(st, t)
  {
    NewUsesArePending(st);
    if TripleKey(t) in st.pending.kyberTriples { TripleKeyInjective(t, st.pending.kyberTriples[TripleKey(t)]); }
  }

  // ---------------------------------------------------------------- refinement

  lemma CommitRefines(st: Store, ok: bool)
    requires Inv(st)
    ensures ViewOf(Commit(st, ok).0) == ViewCommit(ViewOf(st), ok)
  {
    var r := Commit(st, ok).0;
    CommitIsAtomic(st, ok);
    NewUsesArePending(st);
    NothingOverlaid(r.db);
    if st.pending == NothingPending {
      NothingOverlaid(st.db);
      assert WithoutPrefixes(st.cache.kyberTriples, {}) == st.cache.kyberTriples;
    }
  }

  lemma RevertRefines(st: Store)
    requires Inv(st)
    ensures ViewOf(Revert(st)) == ViewRevert(ViewOf(st))
  {
    RevertIsClean(st, "");
    NewUsesArePending(st);
  }

  lemma DropKyberRefines(st: Store, ids: set<string>)
    requires Inv(st)
    ensures ViewOf(st.(pending := StoreState.DropKyberPreKeys(st.pending, ids))) == DropKyber(ViewOf(st), ids)
  {
    NewUsesArePending(st);
    var v, p := ViewOf(st), StoreState.DropKyberPreKeys(st.pending, ids);
    assert Cascade(v.now.triples * v.db.triples, ids) == Cascade(st.db.triples, p.kyberPreKeysToRemove);
    assert st.db.kyberPreKeys - p.kyberPreKeysToRemove == v.now.kyberPreKeys - ids;
  }

  lemma PutTripleRefines(st: Store, t: Triple)
    requires TripleKey(t) !in st.pending.kyberTriples
    ensures
      var now := Overlay(st.db, st.pending);
      Overlay(st.db, PutTriple(st.pending, t)) == now.(triples := now.triples + {t})
  {
    var p := PutTriple(st.pending, t);
    forall u
      ensures u in p.kyberTriples.Values <==> u in st.pending.kyberTriples.Values || u == t
    {
      if u in st.pending.kyberTriples.Values {
        var k :| k in st.pending.kyberTriples && st.pending.kyberTriples[k] == u;
        assert p.kyberTriples[k] == u;
      }
      assert p.kyberTriples[TripleKey(t)] == t;
    }
  }

  lemma UseRefines(st: Store, op: Op)
    requires Inv(st) && op.UseKyberPreKey?
    ensures ViewOf(st.(pending := Staged(st, op))) == Written(ViewOf(st), op)
  {
    var id := KeyId(op.serviceId, op.keyId);
    RefusesRemembered(st, TripleOf(op));
    if id in st.cache.kyberPreKeys {
      if !st.cache.kyberPreKeys[id].isLastResort {
        DropKyberRefines(st, {id});
      } else if !Remembered(st, TripleOf(op)) {
        PutTripleRefines(st, TripleOf(op));
      }
    }
  }

  lemma PutsRefine(st: Store, op: Op)
    requires op.PutSession? || op.PutSenderKey? || op.PutUnprocessed? || op.DropPreKeys?
    ensures ViewOf(st.(pending := Staged(st, op))) == Written(ViewOf(st), op)
  {
    var p := Staged(st, op);
    assert op.PutSession? ==>
      st.db.sessions + p.sessions == (st.db.sessions + st.pending.sessions)[op.id := op.session];
    assert op.PutSenderKey? ==>
      st.db.senderKeys + p.senderKeys == (st.db.senderKeys + st.pending.senderKeys)[op.id := op.key];
    assert op.PutUnprocessed? ==>
      st.db.unprocessed + p.unprocessed == (st.db.unprocessed + st.pending.unprocessed)[op.id := op.item];
    assert op.DropPreKeys? ==>
      st.db.preKeys - p.preKeysToRemove == (st.db.preKeys - st.pending.preKeysToRemove) - op.ids;
  }

  lemma StagedRefines(st: Store, op: Op)
    requires Inv(st) && ZoneOp(op)
    ensures ViewOf(st.(pending := Staged(st, op))) == Written(ViewOf(st), op)
  {
    if op.UseKyberPreKey? {
      UseRefines(st, op);
    } else if op.DropKyberPreKeys? {
      DropKyberRefines(st, op.ids);
    } else if !op.EndCommit? {
      PutsRefine(st, op);
    }
  }

  lemma DeletesRefine(st: Store, op: Op)
    requires op.DeleteSession? || op.DeleteSenderKey?
    ensures ViewOf(Do(st, op)) == WrittenThrough(ViewOf(st), op)
  {
    var p := st.pending;
    assert op.DeleteSession? ==>
      (st.db.sessions - {op.id}) + (p.sessions - {op.id}) == (st.db.sessions + p.sessions) - {op.id};
    assert op.DeleteSenderKey? ==>
      (st.db.senderKeys - {op.id}) + p.senderKeys == (st.db.senderKeys + p.senderKeys) - ({op.id} - p.senderKeys.Keys);
  }

  lemma PlusMinus<T>(a: Keys<T>, b: Keys<T>, ids: set<string>)
    ensures (a + b) - ids == (a - ids) + (b - ids)
  {}

  lemma AddPreKeysRefines(st: Store, op: Op)
    requires Inv(st) && op.AddPreKeys?
    ensures ViewOf(Do(st, op)) == WrittenThrough(ViewOf(st), op)
  {
    PlusMinus(st.db.preKeys, op.preKeys, st.pending.preKeysToRemove);
  }

  lemma AddKyberPreKeysRefines(st: Store, op: Op)
    requires Inv(st) && op.AddKyberPreKeys?
    ensures ViewOf(Do(st, op)) == WrittenThrough(ViewOf(st), op)
  {
    PlusMinus(st.db.kyberPreKeys, op.kyberPreKeys, st.pending.kyberPreKeysToRemove);
  }

  lemma ForgetRefines(st: Store, pni: string)
    requires Inv(st)
    ensures ViewOf(RemoveOurOldPni(st, pni)) == WrittenThrough(ViewOf(st), ForgetOldPni(pni))
  {
    NewUsesArePending(st);
    var v, p := ViewOf(st), st.pending;
    var kyber, pre := KyberPreKeysOf(st.db, pni), PreKeysOf(st.db, pni);
    assert Cascade(Cascade(st.db.triples, kyber), p.kyberPreKeysToRemove)
           == Cascade(v.now.triples * v.db.triples, kyber);
    assert (st.db.kyberPreKeys - kyber) - p.kyberPreKeysToRemove == v.now.kyberPreKeys - kyber;
    assert (st.db.preKeys - pre) - p.preKeysToRemove == v.now.preKeys - pre;
  }

  /** Every operation does to the view what the simple form does. */
  lemma DoRefines(st: Store, op: Op)
    requires Inv(st) && Legal(op)
    ensures ViewOf(Do(st, op)) == ViewDo(ViewOf(st), op)
  {
    if ZoneOp(op) {
      StagedKeepsInv(st, op);
      StagedRefines(st, op);
      if op.UseKyberPreKey? { RefusesRemembered(st, TripleOf(op)); }
      if Commits(st, op) { CommitRefines(st.(pending := Staged(st, op)), op.ok); }
    } else if op.EndRevert? {
      RevertRefines(st);
    } else if op.ForgetOldPni? {
      ForgetRefines(st, op.pni);
    } else if op.DeleteSession? || op.DeleteSenderKey? {
      DeletesRefine(st, op);
    } else if op.Restart? {
      NothingOverlaid(st.db);
    } else if op.AddPreKeys? {
      AddPreKeysRefines(st, op);
    } else {
      AddKyberPreKeysRefines(st, op);
    }
  }

  /** And every use of a kyber prekey is answered the same. */
  lemma VerdictRefines(st: Store, op: Op)
    requires Inv(st) && Legal(op) && op.UseKyberPreKey?
    ensures StoreRuns.Verdict(st, op) == ViewVerdict(ViewOf(st), op)
  {
    StagedKeepsInv(st, op);
    StagedRefines(st, op);
    RefusesRemembered(st, TripleOf(op));
    var staged := st.(pending := Staged(st, op));
    if Commits(st, op) { CommitIsAtomic(staged, op.ok); }
  }

  /** Over every run the store is the simple form: same database, same answers to loads and uses. */
  lemma {:induction false} RunRefines(st: Store, ops: seq<Op>, id: string, use: Op)
    requires Inv(st) && (forall op <- ops :: Legal(op)) && use.UseKyberPreKey? && Legal(use)
    ensures
      var r := Run(st, ops);
      var v := ViewRun(ViewOf(st), ops);
      && ViewOf(r) == v && StoreRuns.Verdict(r, use) == ViewVerdict(v, use)
      && LoadSession(r, id) == Find(v.now.sessions, id) && GetSenderKey(r, id) == Find(v.now.senderKeys, id)
      && LoadPreKey(r, id) == Find(v.now.preKeys, id) && LoadKyberPreKey(r, id) == Find(v.now.kyberPreKeys, id)
    decreases |ops|
  {
    if ops == [] {
      LoadsSeeOverlay(st, id);
      VerdictRefines(st, use);
    } else {
      DoKeepsInv(st, ops[0]);
      DoRefines(st, ops[0]);
      RunRefines(Do(st, ops[0]), ops[1..], id, use);
    }
  }
}
