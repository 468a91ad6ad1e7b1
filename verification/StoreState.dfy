/**
 The data of ts/SignalProtocolStore.preload.ts as values: a database, the caches that mirror it,
 and the pending writes of the current zone; and what each operation makes of them.
 */
module StoreState {
  import opened Wrappers
  import opened KeyIds

  datatype KyberPreKey = KyberPreKey(ourServiceId: string, data: string, isLastResort: bool)
  datatype PreKey = PreKey(ourServiceId: string, keys: string)
  datatype Session = Session(conversationId: string, serviceId: string, record: string)

  type Keys<T> = map<string, T>

  /** The tables of the database that the store writes. */
  datatype Tables = Tables(
    kyberPreKeys: Keys<KyberPreKey>,
    preKeys: Keys<PreKey>,
    senderKeys: Keys<string>,
    sessions: Keys<Session>,
    unprocessed: Keys<string>,
    triples: set<Triple>)

  datatype Caches = Caches(
    kyberPreKeys: Keys<KyberPreKey>,
    preKeys: Keys<PreKey>,
    senderKeys: Keys<string>,
    sessions: Keys<Session>,
    kyberTriples: set<string>)

  datatype Pending = Pending(
    kyberPreKeysToRemove: set<string>,
    preKeysToRemove: set<string>,
    senderKeys: Keys<string>,
    sessions: Keys<Session>,
    unprocessed: Keys<string>,
    kyberTriples: map<string, Triple>)

  const NothingPending := Pending({}, {}, map[], map[], map[], map[])

  datatype Store = Store(db: Tables, cache: Caches, pending: Pending)

  /** What `hydrateCaches` fills the caches with. */
  function Hydrated(t: Tables): Caches {
    Caches(t.kyberPreKeys, t.preKeys, t.senderKeys, t.sessions, set x | x in t.triples :: TripleKey(x))
  }

  /** A new start of the application: what was pending is gone. */
  function Restart(st: Store): Store { Store(st.db, Hydrated(st.db), NothingPending) }

  function Find<T>(m: Keys<T>, id: string): Option<T> { if id in m then Some(m[id]) else None }

  // ---------------------------------------------------------------- the database

  /** Triples go with their key: the foreign key cascades. */
  function Cascade(triples: set<Triple>, removed: set<string>): set<Triple> { set t | t in triples && t.id !in removed }

  /** The tables with the pending writes and removals applied. */
  function Overlay(db: Tables, p: Pending): Tables {
    Tables(
      db.kyberPreKeys - p.kyberPreKeysToRemove,
      db.preKeys - p.preKeysToRemove,
      db.senderKeys + p.senderKeys,
      db.sessions + p.sessions,
      db.unprocessed + p.unprocessed,
      Cascade(db.triples, p.kyberPreKeysToRemove) + p.kyberTriples.Values)
  }

  /** Every triple refers to a key, and no pending triple is there already. */
  ghost predicate Insertable(db: Tables, p: Pending) {
    forall k :: k in p.kyberTriples ==>
      && p.kyberTriples[k].id in db.kyberPreKeys - p.kyberPreKeysToRemove
      && p.kyberTriples[k] !in Cascade(db.triples, p.kyberPreKeysToRemove)
  }

  /** One transaction: everything or, on a violated constraint or an error of the database, nothing. */
  ghost function CommitDecryptResult(db: Tables, p: Pending, ok: bool): Option<Tables> {
    if ok && Insertable(db, p) then Some(Overlay(db, p)) else None
  }

  // ---------------------------------------------------------------- ending a transaction

  /** The cached keys that start with one of the removed ids and a colon go. */
  function WithoutPrefixes(keys: set<string>, ids: set<string>): set<string> {
    set k | k in keys && !exists id :: id in ids && id + ":" <= k
  }

  function Committed(c: Caches, p: Pending): Caches {
    Caches(
      c.kyberPreKeys - p.kyberPreKeysToRemove,
      c.preKeys - p.preKeysToRemove,
      c.senderKeys + p.senderKeys,
      c.sessions + p.sessions,
      WithoutPrefixes(c.kyberTriples + p.kyberTriples.Keys, p.kyberPreKeysToRemove))
  }

  /** `#commitZoneChanges`: what is pending is taken away first, whatever becomes of it. */
  ghost function Commit(st: Store, ok: bool): (Store, bool) {
    if st.pending == NothingPending then (st, true)
    else
      match CommitDecryptResult(st.db, st.pending, ok)
      case None => (st.(pending := NothingPending), false)
      case Some(db) => (Store(db, Committed(st.cache, st.pending), NothingPending), true)
  }

  /** `#revertZoneChanges`: the pending triples stay. */
  function Revert(st: Store): Store {
    st.(pending := NothingPending.(kyberTriples := st.pending.kyberTriples))
  }

  /** An operation in a zone: the write waits for the end of the zone only if the zone supports that. */
  ghost function Finish(st: Store, supported: bool, ok: bool): (Store, bool) {
    if supported then (st, true) else Commit(st, ok)
  }

  // ---------------------------------------------------------------- reading

  function LoadSession(st: Store, id: string): Option<Session> {
    if id in st.pending.sessions then Some(st.pending.sessions[id]) else Find(st.cache.sessions, id)
  }

  function GetSenderKey(st: Store, id: string): Option<string> {
    if id in st.pending.senderKeys then Some(st.pending.senderKeys[id]) else Find(st.cache.senderKeys, id)
  }

  function LoadPreKey(st: Store, id: string): Option<PreKey> {
    if id in st.pending.preKeysToRemove then None else Find(st.cache.preKeys, id)
  }

  function LoadKyberPreKey(st: Store, id: string): Option<KyberPreKey> {
    if id in st.pending.kyberPreKeysToRemove then None else Find(st.cache.kyberPreKeys, id)
  }

  // ---------------------------------------------------------------- writing in a zone

  function PutSession(p: Pending, id: string, s: Session): Pending { p.(sessions := p.sessions[id := s]) }
  function PutSenderKey(p: Pending, id: string, k: string): Pending { p.(senderKeys := p.senderKeys[id := k]) }
  function PutUnprocessed(p: Pending, id: string, u: string): Pending { p.(unprocessed := p.unprocessed[id := u]) }
  function DropPreKeys(p: Pending, ids: set<string>): Pending { p.(preKeysToRemove := p.preKeysToRemove + ids) }
  function DropKyberPreKeys(p: Pending, ids: set<string>): Pending {
    p.(kyberPreKeysToRemove := p.kyberPreKeysToRemove + ids)
  }
  function PutTriple(p: Pending, t: Triple): Pending { p.(kyberTriples := p.kyberTriples[TripleKey(t) := t]) }

  datatype Verdict = NoSuchKey | Duplicate | Accepted | Removed | CommitFailed

  /** `maybeRemoveKyberPreKey`: a last-resort key stays, but each use of it is remembered. */
  ghost function MaybeRemoveKyberPreKey(
    st: Store, serviceId: string, keyId: nat, signedPreKeyId: nat, baseKey: seq<Byte>, supported: bool, ok: bool)
    : (Store, Verdict)
  {
    var id := KeyId(serviceId, keyId);
    var t := Triple(id, signedPreKeyId, baseKey);
    if id !in st.cache.kyberPreKeys then (st, NoSuchKey)
    else if !st.cache.kyberPreKeys[id].isLastResort then
      var (r, done) := Finish(st.(pending := DropKyberPreKeys(st.pending, {id})), supported, ok);
      (r, if done then Removed else CommitFailed)
    else if TripleKey(t) in st.cache.kyberTriples || TripleKey(t) in st.pending.kyberTriples then (st, Duplicate)
    else
      var (r, done) := Finish(st.(pending := PutTriple(st.pending, t)), supported, ok);
      (r, if done then Accepted else CommitFailed)
  }

  // ---------------------------------------------------------------- writing past the zones

  /** `removeSession`; a failed write to the database is logged and changes nothing. */
  function RemoveSession(st: Store, id: string, ok: bool): Store {
    if !ok then st
    else
      Store(
        st.db.(sessions := st.db.sessions - {id}),
        st.cache.(sessions := st.cache.sessions - {id}),
        st.pending.(sessions := st.pending.sessions - {id}))
  }

  /** `removeSenderKey`: pending sender keys are not looked at. */
  function RemoveSenderKey(st: Store, id: string, ok: bool): Store {
    if !ok then st
    else
      Store(
        st.db.(senderKeys := st.db.senderKeys - {id}),
        st.cache.(senderKeys := st.cache.senderKeys - {id}),
        st.pending)
  }

  /** `storePreKeys` and `storeKyberPreKeys` throw when a key is there already. */
  function StorePreKeys(st: Store, keys: Keys<PreKey>, ok: bool): (r: (Store, bool))
    ensures r.1 <==> ok && keys.Keys !! st.cache.preKeys.Keys
    ensures forall id :: r.1 && id in keys ==>
              LoadPreKey(r.0, id) == if id in st.pending.preKeysToRemove then None else Some(keys[id])
    ensures forall id :: !r.1 || id !in keys ==> LoadPreKey(r.0, id) == LoadPreKey(st, id)
  {
    if (exists id :: id in keys && id in st.cache.preKeys) || !ok then (st, false)
    else
      (Store(
         st.db.(preKeys := st.db.preKeys + keys),
         st.cache.(preKeys := st.cache.preKeys + keys),
         st.pending), true)
  }

  function StoreKyberPreKeys(st: Store, keys: Keys<KyberPreKey>, ok: bool): (r: (Store, bool))
    ensures r.1 <==> ok && keys.Keys !! st.cache.kyberPreKeys.Keys
    ensures forall id :: r.1 && id in keys ==>
              LoadKyberPreKey(r.0, id) == if id in st.pending.kyberPreKeysToRemove then None else Some(keys[id])
    ensures forall id :: !r.1 || id !in keys ==> LoadKyberPreKey(r.0, id) == LoadKyberPreKey(st, id)
  {
    if (exists id :: id in keys && id in st.cache.kyberPreKeys) || !ok then (st, false)
    else
      (Store(
         st.db.(kyberPreKeys := st.db.kyberPreKeys + keys),
         st.cache.(kyberPreKeys := st.cache.kyberPreKeys + keys),
         st.pending), true)
  }

  function OwnedBy(ids: set<string>, owner: string): set<string> { set id | id in ids && owner + ":" <= id }

  function KyberPreKeysOf(t: Tables, owner: string): set<string> {
    set id | id in t.kyberPreKeys && t.kyberPreKeys[id].ourServiceId == owner
  }

  function PreKeysOf(t: Tables, owner: string): set<string> {
    set id | id in t.preKeys && t.preKeys[id].ourServiceId == owner
  }

  /**
   The prekeys of `removeOurOldPni`: the caches go by prefix, the database by the owner column,
   and there the triples go with their keys.
   */
  function RemoveOurOldPni(st: Store, pni: string): Store {
    var kyber, pre := KyberPreKeysOf(st.db, pni), PreKeysOf(st.db, pni);
    Store(
      st.db.(kyberPreKeys := st.db.kyberPreKeys - kyber, preKeys := st.db.preKeys - pre,
             triples := Cascade(st.db.triples, kyber)),
      st.cache.(kyberPreKeys := st.cache.kyberPreKeys - OwnedBy(st.cache.kyberPreKeys.Keys, pni),
                preKeys := st.cache.preKeys - OwnedBy(st.cache.preKeys.Keys, pni)),
      st.pending)
  }
}
