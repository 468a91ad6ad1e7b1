/**
 What the pending writes mean: every load answers from the database with the pending writes
 applied, a commit makes that the database, and everything else leaves it as it was.
 */
module StoreProofs {
  import opened Wrappers
  import opened KeyIds
  import opened StoreState

  // ---------------------------------------------------------------- the invariant

  ghost predicate KeyOf(id: string, owner: string) { exists n :: IsKeyId(id, owner, n) }

  ghost predicate IsKey(id: string) { exists owner :: KeyOf(id, owner) }

  /** The caches mirror the database; of the triples they may remember more. */
  ghost predicate Mirrors(c: Caches, db: Tables) {
    && c.kyberPreKeys == db.kyberPreKeys && c.preKeys == db.preKeys
    && c.senderKeys == db.senderKeys && c.sessions == db.sessions
    && forall t <- db.triples :: TripleKey(t) in c.kyberTriples
  }

  /** Prekeys are filed under the ids made from their owner's service id. */
  ghost predicate Filed(db: Tables) {
    && (forall id :: id in db.kyberPreKeys ==> KeyOf(id, db.kyberPreKeys[id].ourServiceId))
    && (forall id :: id in db.preKeys ==> KeyOf(id, db.preKeys[id].ourServiceId))
  }

  /** The foreign key of the triples. */
  ghost predicate Referential(db: Tables) { forall t <- db.triples :: t.id in db.kyberPreKeys }

  /** Pending triples are new, and pending removals name keys by well-formed ids. */
  ghost predicate PendingOk(c: Caches, p: Pending) {
    && (forall k :: k in p.kyberTriples ==>
          TripleKey(p.kyberTriples[k]) == k && IsKey(p.kyberTriples[k].id) && k !in c.kyberTriples)
    && (forall id <- p.kyberPreKeysToRemove :: IsKey(id))
  }

  ghost predicate Inv(st: Store) {
    && Mirrors(st.cache, st.db) && Filed(st.db) && Referential(st.db) && PendingOk(st.cache, st.pending)
  }

  /** Freshly hydrated caches satisfy it, and remember exactly the uses in the table. */
  lemma HydratedInv(db: Tables, t: Triple)
    requires Filed(db) && Referential(db)
    ensures Inv(Store(db, Hydrated(db), NothingPending))
    ensures TripleKey(t) in Hydrated(db).kyberTriples <==> t in db.triples
  {
    forall u | u in db.triples && TripleKey(u) == TripleKey(t)
      ensures u == t
    {
      TripleKeyInjective(u, t);
    }
  }

  // ---------------------------------------------------------------- loads see the overlay

  lemma LoadsSeeOverlay(st: Store, id: string)
    requires Mirrors(st.cache, st.db)
    ensures
      var view := Overlay(st.db, st.pending);
      && LoadSession(st, id) == Find(view.sessions, id) && GetSenderKey(st, id) == Find(view.senderKeys, id)
      && LoadPreKey(st, id) == Find(view.preKeys, id) && LoadKyberPreKey(st, id) == Find(view.kyberPreKeys, id)
  {}

  // ---------------------------------------------------------------- commits

  lemma KeyIsFiled(db: Tables, t: Triple)
    requires Filed(db) && Referential(db) && t in db.triples
    ensures IsKey(t.id)
  {}

  /** The prefix rule of the cache removes exactly the triples the database cascades away. */
  lemma PrefixMatchesCascade(ids: set<string>, t: Triple)
    requires IsKey(t.id) && forall id <- ids :: IsKey(id)
    ensures (exists id :: id in ids && id + ":" <= TripleKey(t)) <==> t.id in ids
  {
    forall id | id in ids
      ensures id + ":" <= TripleKey(t) <==> t.id == id
    {
      var s :| KeyOf(id, s);
      var m :| IsKeyId(id, s, m);
      var u :| KeyOf(t.id, u);
      var n :| IsKeyId(t.id, u, n);
      TriplePrefixExact(id, s, m, t, u, n);
    }
  }

  /** The unique constraint never fires: the duplicate check was made before. */
  lemma PendingTriplesAreNew(st: Store, k: string)
    requires Inv(st) && k in st.pending.kyberTriples
    ensures st.pending.kyberTriples[k] !in st.db.triples
  {}

  /** So a commit can only fail on its own account if the foreign key of the result is broken. */
  lemma InsertableIff(st: Store)
    requires Inv(st)
    ensures Insertable(st.db, st.pending) <==> Referential(Overlay(st.db, st.pending))
  {}

  lemma CommittedMirrors(st: Store)
    requires Inv(st) && Referential(Overlay(st.db, st.pending))
    ensures Mirrors(Committed(st.cache, st.pending), Overlay(st.db, st.pending))
  {
    var view := Overlay(st.db, st.pending);
    forall t | t in view.triples
      ensures TripleKey(t) in Committed(st.cache, st.pending).kyberTriples
    {
      if t in st.pending.kyberTriples.Values {
        var k :| k in st.pending.kyberTriples && st.pending.kyberTriples[k] == t;
      } else {
        KeyIsFiled(st.db, t);
      }
      assert t.id in view.kyberPreKeys;
      PrefixMatchesCascade(st.pending.kyberPreKeysToRemove, t);
    }
  }

  /** A commit succeeds exactly if the database is up to it and the result keeps the foreign key. */
  ghost predicate Committable(st: Store, ok: bool) {
    st.pending == NothingPending || (ok && Referential(Overlay(st.db, st.pending)))
  }

  /**
   A commit that succeeds makes database and caches the overlay, so no load changes its answer;
   one that fails leaves database and caches as they were. Either way nothing is pending.
   */
  lemma CommitIsAtomic(st: Store, ok: bool)
    requires Inv(st)
    ensures
      var (r, done) := Commit(st, ok);
      && done == Committable(st, ok) && r.pending == NothingPending && Inv(r)
      && (done ==> r.db == Overlay(st.db, st.pending))
      && (!done ==> r.db == st.db && r.cache == st.cache)
  {
    InsertableIff(st);
    if st.pending == NothingPending {
      NothingOverlaid(st.db);
    } else if ok && Insertable(st.db, st.pending) {
      CommittedMirrors(st);
    }
  }

  lemma NothingOverlaid(db: Tables)
    ensures Overlay(db, NothingPending) == db
  {}

  lemma CommitKeepsLoads(st: Store, ok: bool, id: string)
    requires Inv(st) && Committable(st, ok)
    ensures
      var r := Commit(st, ok).0;
      && LoadSession(r, id) == LoadSession(st, id) && GetSenderKey(r, id) == GetSenderKey(st, id)
      && LoadPreKey(r, id) == LoadPreKey(st, id) && LoadKyberPreKey(r, id) == LoadKyberPreKey(st, id)
  {
    CommitIsAtomic(st, ok);
    var r := Commit(st, ok).0;
    NothingOverlaid(r.db);
    LoadsSeeOverlay(st, id);
    LoadsSeeOverlay(r, id);
  }

  /**
   Which uses a successful commit leaves in the table: those that were pending, and those that were there and whose key
   it did not remove. The cache forgets exactly the uses of the removed keys too.
   */
  lemma UsesAfterCommit(st: Store, ok: bool, t: Triple)
    requires Inv(st) && Committable(st, ok)
    ensures
      t in Commit(st, ok).0.db.triples
      <==> (exists k :: k in st.pending.kyberTriples && st.pending.kyberTriples[k] == t)
           || (t in st.db.triples && t.id !in st.pending.kyberPreKeysToRemove)
    ensures
      IsKey(t.id) ==>
        (TripleKey(t) in Commit(st, ok).0.cache.kyberTriples
         <==> (TripleKey(t) in st.cache.kyberTriples || TripleKey(t) in st.pending.kyberTriples)
              && t.id !in st.pending.kyberPreKeysToRemove)
  {
    CommitIsAtomic(st, ok);
    NothingOverlaid(st.db);
    if IsKey(t.id) { PrefixMatchesCascade(st.pending.kyberPreKeysToRemove, t); }
  }

  /** Forgetting a PNI takes the uses of its own keys from the table and no other. */
  lemma UsesAfterForget(st: Store, pni: string, t: Triple)
    requires Inv(st)
    ensures
      t in RemoveOurOldPni(st, pni).db.triples
      <==> t in st.db.triples && t.id in st.db.kyberPreKeys && st.db.kyberPreKeys[t.id].ourServiceId != pni
  {}

  /** A revert gives back the database for every load; only pending triples outlive it. */
  lemma RevertIsClean(st: Store, id: string)
    requires Inv(st)
    ensures
      var r := Revert(st);
      && Inv(r) && r.db == st.db && r.cache == st.cache
      && LoadSession(r, id) == Find(st.db.sessions, id) && GetSenderKey(r, id) == Find(st.db.senderKeys, id)
      && LoadPreKey(r, id) == Find(st.db.preKeys, id) && LoadKyberPreKey(r, id) == Find(st.db.kyberPreKeys, id)
      && Overlay(r.db, r.pending) == st.db.(triples := st.db.triples + st.pending.kyberTriples.Values)
  {}
}
