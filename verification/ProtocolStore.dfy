/** The store as it runs: caches whose entries are hydrated on first use, and six pending collections. */
module ProtocolStore {
  import opened Wrappers
  import opened KeyIds
  import opened StoreState
  import opened ZoneLock

  /** Triples are filed under their own cache key, so no two entries are the same triple. */
  ghost predicate Keyed(triples: map<string, Triple>) { forall k :: k in triples ==> TripleKey(triples[k]) == k }

  class Database {
    var tables: Tables

    constructor (tables: Tables)
      ensures this.tables == tables
    {
      this.tables := tables;
    }

    /** `commitDecryptResult`, one transaction; `ok` is false when the database itself fails. */
    method CommitDecryptResult(p: Pending, ok: bool) returns (done: bool)
      requires Keyed(p.kyberTriples)
      modifies this
      ensures done == StoreState.CommitDecryptResult(old(tables), p, ok).Some?
      ensures tables == if done then Overlay(old(tables), p) else old(tables)
      ensures
        done
        <==> ok && forall k :: k in p.kyberTriples ==>
               var t := p.kyberTriples[k];
               t.id in old(tables).kyberPreKeys && t.id !in p.kyberPreKeysToRemove && t !in old(tables).triples
      ensures
        forall t ::
          t in tables.triples
          <==> (t in old(tables).triples && (done ==> t.id !in p.kyberPreKeysToRemove))
               || (done && t in p.kyberTriples.Values)
    {
      var before := tables;
      tables := tables.(
        kyberPreKeys := tables.kyberPreKeys - p.kyberPreKeysToRemove,
        triples := Cascade(tables.triples, p.kyberPreKeysToRemove));
      tables := tables.(preKeys := tables.preKeys - p.preKeysToRemove);
      tables := tables.(senderKeys := tables.senderKeys + p.senderKeys);
      tables := tables.(sessions := tables.sessions + p.sessions);
      tables := tables.(unprocessed := tables.unprocessed + p.unprocessed);
      var inserted := InsertTriples(p.kyberTriples);
      done := ok && inserted;
      if !done { tables := before; }
    }

    /** `removePreKeysByServiceId`. */
    method RemovePreKeysByServiceId(owner: string)
      modifies this
      ensures tables == old(tables).(preKeys := old(tables).preKeys - PreKeysOf(old(tables), owner))
    {
      var left := map id | id in tables.preKeys && tables.preKeys[id].ourServiceId != owner :: tables.preKeys[id];
      tables := tables.(preKeys := left);
    }

    /** `removeKyberPreKeysByServiceId`; the foreign key cascades to the triples. */
    method RemoveKyberPreKeysByServiceId(owner: string)
      modifies this
      ensures
        var kyber := KyberPreKeysOf(old(tables), owner);
        tables
        == old(tables).(kyberPreKeys := old(tables).kyberPreKeys - kyber,
                        triples := Cascade(old(tables).triples, kyber))
      ensures
        forall t ::
          t in tables.triples
          <==> t in old(tables).triples
               && (t.id in old(tables).kyberPreKeys ==> old(tables).kyberPreKeys[t.id].ourServiceId != owner)
    {
      var keys := tables.kyberPreKeys;
      var left := map id | id in keys && keys[id].ourServiceId != owner :: keys[id];
      var orphans := set t | t in tables.triples && t.id in tables.kyberPreKeys && t.id !in left;
      tables := tables.(kyberPreKeys := left, triples := tables.triples - orphans);
    }

    /** `markKyberTripleSeenOrFail`: the row must refer to a key and not be there already. */
    method MarkKyberTripleSeenOrFail(t: Triple) returns (done: bool)
      modifies this
      ensures done == (t.id in old(tables).kyberPreKeys && t !in old(tables).triples)
      ensures tables == if done then old(tables).(triples := old(tables).triples + {t}) else old(tables)
    {
      done := t.id in tables.kyberPreKeys && t !in tables.triples;
      if done { tables := tables.(triples := tables.triples + {t}); }
    }

    /** Foreign key and unique constraint are checked row by row. */
    method InsertTriples(triples: map<string, Triple>) returns (done: bool)
      requires Keyed(triples)
      modifies this
      ensures done <==> RowsOk(triples, triples.Keys, old(tables))
      ensures done ==> tables == old(tables).(triples := old(tables).triples + triples.Values)
    {
      var todo := triples.Keys;
      ghost var before := tables;
      ghost var inserted: set<string> := {};
      while todo != {}
        invariant todo !! inserted && todo + inserted == triples.Keys
        invariant SoFar(before, tables, triples, inserted)
        decreases todo
      {
        var k :| k in todo;
        InsertNext(before, tables, triples, inserted, k);
        var marked := MarkKyberTripleSeenOrFail(triples[k]);
        if !marked { return false; }
        todo, inserted := todo - {k}, inserted + {k};
      }
      assert Inserted(triples, triples.Keys) == triples.Values;
      done := true;
    }
  }

  ghost predicate RowsOk(triples: map<string, Triple>, keys: set<string>, t: Tables) {
    forall k :: k in keys && k in triples ==> triples[k].id in t.kyberPreKeys && triples[k] !in t.triples
  }

  ghost predicate SoFar(before: Tables, now: Tables, triples: map<string, Triple>, inserted: set<string>) {
    now == before.(triples := before.triples + Inserted(triples, inserted)) && RowsOk(triples, inserted, before)
  }

  /** A row is refused because of what was there before, not because of the rows before it. */
  lemma InsertNext(before: Tables, now: Tables, triples: map<string, Triple>, inserted: set<string>, k: string)
    requires SoFar(before, now, triples, inserted) && Keyed(triples) && k in triples && k !in inserted
    ensures
      if triples[k].id in now.kyberPreKeys && triples[k] !in now.triples
      then SoFar(before, now.(triples := now.triples + {triples[k]}), triples, inserted + {k})
      else !RowsOk(triples, triples.Keys, before)
  {}

  function Inserted(triples: map<string, Triple>, keys: set<string>): set<Triple> {
    set k | k in keys && k in triples :: triples[k]
  }

  /** A cached record, hydrated once it has been used; hydration does not change what it says. */
  datatype Entry<T> = Entry(fromDB: T, hydrated: bool)

  type Cache<T> = map<string, Entry<T>>

  function Logical<T>(c: Cache<T>): Keys<T> { map k | k in c :: c[k].fromDB }

  lemma LogicalPlus<T>(a: Cache<T>, b: Cache<T>)
    ensures Logical(a + b) == Logical(a) + Logical(b)
  {}

  lemma LogicalMinus<T>(a: Cache<T>, ids: set<string>)
    ensures Logical(a - ids) == Logical(a) - ids
  {}

  lemma LogicalSet<T>(a: Cache<T>, id: string, e: Entry<T>)
    ensures Logical(a[id := e]) == Logical(a)[id := e.fromDB]
  {}

  /** Records as they come from the database. */
  function Unhydrated<T>(m: Keys<T>): Cache<T> { map k | k in m :: Entry(m[k], false) }

  lemma LogicalUnhydrated<T>(m: Keys<T>)
    ensures Logical(Unhydrated(m)) == m
  {}

  class SignalProtocolStore {
    const db: Database
    var kyberPreKeys: Cache<KyberPreKey>
    var preKeys: Cache<PreKey>
    var senderKeys: Cache<string>
    var sessions: Cache<Session>
    var kyberTriples: set<string>
    var pendingKyberPreKeysToRemove: set<string>
    var pendingPreKeysToRemove: set<string>
    var pendingSenderKeys: Cache<string>
    var pendingSessions: Cache<Session>
    var pendingUnprocessed: Keys<string>
    var pendingKyberTriples: map<string, Triple>

    function PendingNow(): Pending
      reads this
    {
      Pending(pendingKyberPreKeysToRemove, pendingPreKeysToRemove, Logical(pendingSenderKeys), Logical(pendingSessions),
              pendingUnprocessed, pendingKyberTriples)
    }

    function CachesNow(): Caches
      reads this
    {
      Caches(Logical(kyberPreKeys), Logical(preKeys), Logical(senderKeys), Logical(sessions), kyberTriples)
    }

    function Snapshot(): Store
      reads this, db
    {
      Store(db.tables, CachesNow(), PendingNow())
    }

    /** Pending records are hydrated from the start: a load never copies one into the cache. */
    ghost predicate Valid()
      reads this
    {
      && Keyed(pendingKyberTriples)
      && (forall k :: k in pendingSenderKeys ==> pendingSenderKeys[k].hydrated)
    }

    /** A store with its caches filled by `hydrateCaches`. */
    constructor (db: Database)
      ensures Valid() && this.db == db
      ensures
        Snapshot() == Store(db.tables, Hydrated(db.tables), NothingPending)
    {
      this.db := db;
      kyberPreKeys := Unhydrated(db.tables.kyberPreKeys);
      preKeys := Unhydrated(db.tables.preKeys);
      senderKeys := Unhydrated(db.tables.senderKeys);
      sessions := Unhydrated(db.tables.sessions);
      kyberTriples := set x | x in db.tables.triples :: TripleKey(x);
      pendingKyberPreKeysToRemove, pendingPreKeysToRemove := {}, {};
      pendingSenderKeys, pendingSessions, pendingUnprocessed, pendingKyberTriples := map[], map[], map[], map[];
      LogicalUnhydrated(db.tables.kyberPreKeys);
      LogicalUnhydrated(db.tables.preKeys);
      LogicalUnhydrated(db.tables.senderKeys);
      LogicalUnhydrated(db.tables.sessions);
    }

    /** `#commitZoneChanges`: `done` is false where it throws. */
    method CommitZoneChanges(ok: bool) returns (done: bool)
      requires Valid()
      modifies this, db
      ensures Valid() && (Snapshot(), done) == Commit(old(Snapshot()), ok)
    {
      if PendingNow() == NothingPending { return true; }
      var p, newSenderKeys, newSessions := TakePending();
      done := db.CommitDecryptResult(p, ok);
      if !done { return; }
      ApplyCommitted(p, newSenderKeys, newSessions);
    }

    /** The pending collections are swapped for empty ones before the database is awaited. */
    method TakePending() returns (p: Pending, newSenderKeys: Cache<string>, newSessions: Cache<Session>)
      requires Valid()
      modifies this`pendingKyberPreKeysToRemove, this`pendingPreKeysToRemove, this`pendingSenderKeys,
               this`pendingSessions, this`pendingUnprocessed, this`pendingKyberTriples
      ensures Valid() && p == old(PendingNow()) && PendingNow() == NothingPending
      ensures p.senderKeys == Logical(newSenderKeys) && p.sessions == Logical(newSessions) && Keyed(p.kyberTriples)
    {
      p, newSenderKeys, newSessions := PendingNow(), pendingSenderKeys, pendingSessions;
      pendingKyberPreKeysToRemove := {};
      pendingPreKeysToRemove := {};
      pendingSenderKeys := map[];
      pendingSessions := map[];
      pendingUnprocessed := map[];
      pendingKyberTriples := map[];
    }

    /** The changes to the caches after the successful write. */
    method ApplyCommitted(p: Pending, newSenderKeys: Cache<string>, newSessions: Cache<Session>)
      requires p.senderKeys == Logical(newSenderKeys) && p.sessions == Logical(newSessions)
      modifies this`kyberPreKeys, this`preKeys, this`senderKeys, this`sessions, this`kyberTriples
      ensures CachesNow() == Committed(old(CachesNow()), p)
    {
      LogicalMinus(kyberPreKeys, p.kyberPreKeysToRemove);
      LogicalMinus(preKeys, p.preKeysToRemove);
      LogicalPlus(senderKeys, newSenderKeys);
      LogicalPlus(sessions, newSessions);
      kyberTriples := kyberTriples + p.kyberTriples.Keys;
      ForgetKyberPreKeys(p.kyberPreKeysToRemove);
      preKeys := preKeys - p.preKeysToRemove;
      senderKeys := senderKeys + newSenderKeys;
      sessions := sessions + newSessions;
    }

    /** The cached keys go one by one, each with the cached triples that start with it. */
    method ForgetKyberPreKeys(ids: set<string>)
      modifies this`kyberPreKeys, this`kyberTriples
      ensures kyberPreKeys == old(kyberPreKeys) - ids && kyberTriples == WithoutPrefixes(old(kyberTriples), ids)
    {
      var todo := ids;
      while todo != {}
        invariant todo <= ids
        invariant kyberPreKeys == old(kyberPreKeys) - (ids - todo)
        invariant kyberTriples == WithoutPrefixes(old(kyberTriples), ids - todo)
        decreases todo
      {
        var id :| id in todo;
        kyberPreKeys := kyberPreKeys - {id};
        var prefix := id + ":";
        kyberTriples := set k | k in kyberTriples && !(prefix <= k);
        todo := todo - {id};
      }
    }

    /** `#revertZoneChanges`. */
    method RevertZoneChanges()
      requires Valid()
      modifies this
      ensures Valid() && Snapshot() == Revert(old(Snapshot()))
    {
      pendingKyberPreKeysToRemove := {};
      pendingPreKeysToRemove := {};
      pendingSenderKeys := map[];
      pendingSessions := map[];
      pendingUnprocessed := map[];
    }

    // -------------------------------------------------------------- sessions

    /** `loadSession`: what is pending comes first; a cached record is hydrated in place. */
    method LoadSession(id: string) returns (s: Option<Session>)
      requires Valid()
      modifies this
      ensures Valid() && Snapshot() == old(Snapshot()) && s == StoreState.LoadSession(old(Snapshot()), id)
    {
      if id in pendingSessions {
        var entry := pendingSessions[id];
        LogicalSet(pendingSessions, id, entry.(hydrated := true));
        pendingSessions := pendingSessions[id := entry.(hydrated := true)];
        return Some(entry.fromDB);
      }
      if id !in sessions { return None; }
      var entry := sessions[id];
      LogicalSet(sessions, id, entry.(hydrated := true));
      sessions := sessions[id := entry.(hydrated := true)];
      s := Some(entry.fromDB);
    }

    /** `storeSession`: a failing commit is thrown on to the caller. */
    method StoreSession(id: string, session: Session, zone: Zone, ok: bool) returns (done: bool)
      requires Valid()
      modifies this, db
      ensures Valid()
      ensures
        var st := old(Snapshot());
        (Snapshot(), done)
        == Finish(st.(pending := StoreState.PutSession(st.pending, id, session)), zone.pendingSessions, ok)
    {
      LogicalSet(pendingSessions, id, Entry(session, true));
      pendingSessions := pendingSessions[id := Entry(session, true)];
      done := true;
      if !zone.pendingSessions { done := CommitZoneChanges(ok); }
    }

    /** `removeSession`, in the global zone. */
    method RemoveSession(id: string, ok: bool)
      requires Valid()
      modifies this, db
      ensures Valid() && Snapshot() == StoreState.RemoveSession(old(Snapshot()), id, ok)
    {
      if !ok { return; }
      LogicalMinus(sessions, {id});
      LogicalMinus(pendingSessions, {id});
      db.tables := db.tables.(sessions := db.tables.sessions - {id});
      sessions := sessions - {id};
      pendingSessions := pendingSessions - {id};
    }

    // -------------------------------------------------------------- sender keys

    /** `getSenderKey`: a record hydrated here always goes to the cache, so it must come from there. */
    method GetSenderKey(id: string) returns (k: Option<string>)
      requires Valid()
      modifies this
      ensures Valid() && Snapshot() == old(Snapshot()) && k == StoreState.GetSenderKey(old(Snapshot()), id)
    {
      var source := if id in pendingSenderKeys then pendingSenderKeys else senderKeys;
      if id !in source { return None; }
      var entry := source[id];
      k := Some(entry.fromDB);
      if entry.hydrated { return; }
      LogicalSet(senderKeys, id, entry.(hydrated := true));
      senderKeys := senderKeys[id := entry.(hydrated := true)];
    }

    /** `saveSenderKey`: a failing commit is logged, not thrown. */
    method SaveSenderKey(id: string, key: string, zone: Zone, ok: bool)
      requires Valid()
      modifies this, db
      ensures Valid()
      ensures
        var st := old(Snapshot());
        Snapshot() == Finish(st.(pending := StoreState.PutSenderKey(st.pending, id, key)), zone.pendingSenderKeys, ok).0
    {
      LogicalSet(pendingSenderKeys, id, Entry(key, true));
      pendingSenderKeys := pendingSenderKeys[id := Entry(key, true)];
      if !zone.pendingSenderKeys {
        var _ := CommitZoneChanges(ok);
      }
    }

    /** `removeSenderKey`, in no zone at all. */
    method RemoveSenderKey(id: string, ok: bool)
      requires Valid()
      modifies this, db
      ensures Valid() && Snapshot() == StoreState.RemoveSenderKey(old(Snapshot()), id, ok)
    {
      if !ok { return; }
      LogicalMinus(senderKeys, {id});
      db.tables := db.tables.(senderKeys := db.tables.senderKeys - {id});
      senderKeys := senderKeys - {id};
    }

    // -------------------------------------------------------------- prekeys

    /** `loadPreKey`. */
    method LoadPreKey(id: string) returns (k: Option<PreKey>)
      requires Valid()
      modifies this
      ensures Valid() && Snapshot() == old(Snapshot()) && k == StoreState.LoadPreKey(old(Snapshot()), id)
    {
      if id in pendingPreKeysToRemove || id !in preKeys { return None; }
      var entry := preKeys[id];
      LogicalSet(preKeys, id, entry.(hydrated := true));
      preKeys := preKeys[id := entry.(hydrated := true)];
      k := Some(entry.fromDB);
    }

    /** `storePreKeys`: nothing is stored if one of them is there already. */
    method StorePreKeys(keys: Keys<PreKey>, ok: bool) returns (done: bool)
      requires Valid()
      modifies this, db
      ensures Valid() && (Snapshot(), done) == StoreState.StorePreKeys(old(Snapshot()), keys, ok)
    {
      if (exists id :: id in keys && id in preKeys) || !ok { return false; }
      LogicalUnhydrated(keys);
      LogicalPlus(preKeys, Unhydrated(keys));
      db.tables := db.tables.(preKeys := db.tables.preKeys + keys);
      preKeys := preKeys + Unhydrated(keys);
      done := true;
    }

    /** `removePreKeys`. */
    method RemovePreKeys(ids: set<string>, zone: Zone, ok: bool) returns (done: bool)
      requires Valid()
      modifies this, db
      ensures Valid()
      ensures
        var st := old(Snapshot());
        (Snapshot(), done) == Finish(st.(pending := DropPreKeys(st.pending, ids)), zone.pendingPreKeysToRemove, ok)
    {
      pendingPreKeysToRemove := pendingPreKeysToRemove + ids;
      done := true;
      if !zone.pendingPreKeysToRemove { done := CommitZoneChanges(ok); }
    }

    /** `loadKyberPreKey`. */
    method LoadKyberPreKey(id: string) returns (k: Option<KyberPreKey>)
      requires Valid()
      modifies this
      ensures Valid() && Snapshot() == old(Snapshot()) && k == StoreState.LoadKyberPreKey(old(Snapshot()), id)
    {
      if id in pendingKyberPreKeysToRemove { return None; }
      k := GetKyberPreKeyEntry(id);
    }

    method GetKyberPreKeyEntry(id: string) returns (k: Option<KyberPreKey>)
      requires Valid()
      modifies this`kyberPreKeys
      ensures Valid() && Snapshot() == old(Snapshot()) && k == Find(old(Snapshot()).cache.kyberPreKeys, id)
    {
      if id !in kyberPreKeys { return None; }
      var entry := kyberPreKeys[id];
      LogicalSet(kyberPreKeys, id, entry.(hydrated := true));
      kyberPreKeys := kyberPreKeys[id := entry.(hydrated := true)];
      k := Some(entry.fromDB);
    }

    /** `storeKyberPreKeys`. */
    method StoreKyberPreKeys(keys: Keys<KyberPreKey>, ok: bool) returns (done: bool)
      requires Valid()
      modifies this, db
      ensures Valid() && (Snapshot(), done) == StoreState.StoreKyberPreKeys(old(Snapshot()), keys, ok)
    {
      if (exists id :: id in keys && id in kyberPreKeys) || !ok { return false; }
      LogicalUnhydrated(keys);
      LogicalPlus(kyberPreKeys, Unhydrated(keys));
      db.tables := db.tables.(kyberPreKeys := db.tables.kyberPreKeys + keys);
      kyberPreKeys := kyberPreKeys + Unhydrated(keys);
      done := true;
    }

    /** `removeKyberPreKeys`. */
    method RemoveKyberPreKeys(ids: set<string>, zone: Zone, ok: bool) returns (done: bool)
      requires Valid()
      modifies this, db
      ensures Valid()
      ensures
        var st := old(Snapshot());
        (Snapshot(), done)
        == Finish(st.(pending := DropKyberPreKeys(st.pending, ids)), zone.pendingKyberPreKeysToRemove, ok)
    {
      pendingKyberPreKeysToRemove := pendingKyberPreKeysToRemove + ids;
      done := true;
      if !zone.pendingKyberPreKeysToRemove { done := CommitZoneChanges(ok); }
    }

    /** `maybeRemoveKyberPreKey`; a `Duplicate` and a `CommitFailed` are thrown. */
    method MaybeRemoveKyberPreKey(
      serviceId: string, keyId: nat, signedPreKeyId: nat, baseKey: seq<Byte>, zone: Zone, ok: bool)
      returns (v: Verdict)
      requires Valid()
      modifies this, db
      ensures Valid()
      ensures
        (Snapshot(), v)
        == StoreState.MaybeRemoveKyberPreKey(
             old(Snapshot()), serviceId, keyId, signedPreKeyId, baseKey, zone.pendingKyberPreKeysToRemove, ok)
    {
      var id := KeyId(serviceId, keyId);
      var entry := GetKyberPreKeyEntry(id);
      if entry.None? { return NoSuchKey; }
      if !entry.value.isLastResort {
        var removed := RemoveKyberPreKeys({id}, zone, ok);
        return if removed then Removed else CommitFailed;
      }
      var triple := Triple(id, signedPreKeyId, baseKey);
      var cacheKey := TripleKey(triple);
      if cacheKey in kyberTriples || cacheKey in pendingKyberTriples { return Duplicate; }
      pendingKyberTriples := pendingKyberTriples[cacheKey := triple];
      var done := true;
      if !zone.pendingKyberPreKeysToRemove { done := CommitZoneChanges(ok); }
      v := if done then Accepted else CommitFailed;
    }

    // -------------------------------------------------------------- the rest

    /** `addUnprocessed`. */
    method AddUnprocessed(id: string, item: string, zone: Zone, ok: bool) returns (done: bool)
      requires Valid()
      modifies this, db
      ensures Valid()
      ensures
        var st := old(Snapshot());
        (Snapshot(), done)
        == Finish(st.(pending := StoreState.PutUnprocessed(st.pending, id, item)), zone.pendingUnprocessed, ok)
    {
      pendingUnprocessed := pendingUnprocessed[id := item];
      done := true;
      if !zone.pendingUnprocessed { done := CommitZoneChanges(ok); }
    }

    /** The prekeys of `removeOurOldPni`: the caches are walked for the prefix, the tables go by owner. */
    method RemoveOurOldPni(oldPni: string)
      requires Valid()
      modifies this, db
      ensures Valid() && Snapshot() == StoreState.RemoveOurOldPni(old(Snapshot()), oldPni)
    {
      ForgetOwned(oldPni);
      db.RemovePreKeysByServiceId(oldPni);
      db.RemoveKyberPreKeysByServiceId(oldPni);
    }

    method ForgetOwned(oldPni: string)
      modifies this`preKeys, this`kyberPreKeys
      ensures
        var c := old(CachesNow());
        CachesNow() == c.(kyberPreKeys := c.kyberPreKeys - OwnedBy(c.kyberPreKeys.Keys, oldPni),
                          preKeys := c.preKeys - OwnedBy(c.preKeys.Keys, oldPni))
    {
      LogicalMinus(preKeys, OwnedBy(preKeys.Keys, oldPni));
      LogicalMinus(kyberPreKeys, OwnedBy(kyberPreKeys.Keys, oldPni));
      preKeys := WithoutPrefix(preKeys, oldPni + ":");
      kyberPreKeys := WithoutPrefix(kyberPreKeys, oldPni + ":");
    }

    /** The walk over one cache. */
    method WithoutPrefix<T>(cache: Cache<T>, prefix: string) returns (r: Cache<T>)
      ensures r == cache - set id | id in cache && prefix <= id
    {
      r := cache;
      var todo := cache.Keys;
      while todo != {}
        invariant todo <= cache.Keys
        invariant r == cache - set id | id in cache && id !in todo && prefix <= id
        decreases todo
      {
        var id :| id in todo;
        if prefix <= id { r := r - {id}; }
        todo := todo - {id};
      }
    }
  }
}
