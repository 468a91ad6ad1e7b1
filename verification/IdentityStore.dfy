/** The identity records as the store keeps them: a cache in front of a table. */
module IdentityStore {
  import opened Wrappers
  import opened IdentityKeys

  class IdentityStore {
    var identityKeys: Records
    var table: Records

    /** The cache mirrors the table, and records are filed under their ids. */
    ghost predicate Valid()
      reads this
    {
      identityKeys == table && Filed(identityKeys)
    }

    constructor (table: Records)
      requires Filed(table)
      ensures Valid() && identityKeys == table
    {
      this.table := table;
      identityKeys := table;
    }

    method SaveIdentityKey(rec: IdentityRecord)
      modifies this
      ensures table == old(table)[rec.id := rec] && identityKeys == old(identityKeys)[rec.id := rec]
    {
      table := table[rec.id := rec];
      identityKeys := identityKeys[rec.id := rec];
    }

    method GetOrMigrateIdentityRecord(sid: string, ctx: Context) returns (rec: Option<IdentityRecord>)
      requires Valid()
      modifies this
      ensures Valid() && identityKeys == Migrate(old(identityKeys), ctx, sid)
      ensures rec == if sid in identityKeys then Some(identityKeys[sid]) else None
    {
      if sid in identityKeys { return Some(identityKeys[sid]); }
      if sid !in ctx.conversationOf { return None; }
      var oldId := OldId(ctx.conversationOf[sid]);
      if oldId !in identityKeys { return None; }
      var newRecord := identityKeys[oldId].(id := sid);
      SaveIdentityKey(newRecord);
      identityKeys := identityKeys - {oldId};
      table := table - {oldId};
      rec := Some(newRecord);
    }

    method SaveIdentity(sid: string, key: Key, approval: bool, noOverwrite: bool, ctx: Context, now: Time)
      returns (change: Change)
      requires Valid()
      modifies this
      ensures Valid()
      ensures (identityKeys, change)
              == IdentityKeys.SaveIdentity(old(identityKeys), ctx, sid, key, approval, noOverwrite, now)
    {
      change := NewOrUnchanged;
      var found := GetOrMigrateIdentityRecord(sid, ctx);
      if found.None? || found.value.publicKey.None? {
        SaveIdentityKey(IdentityRecord(sid, Some(key), true, now, Default, approval));
        return;
      }
      if noOverwrite { return; }
      var rec := found.value;
      if rec.publicKey.value != key {
        if sid in ctx.ours { return; }
        var verified := if rec.verified == Verified || rec.verified == Unverified then Unverified else Default;
        SaveIdentityKey(IdentityRecord(sid, Some(key), false, now, verified, approval));
        return ReplacedExisting;
      }
      if ApprovalRequired(rec, now) {
        SaveIdentityKey(rec.(nonblockingApproval := approval));
      }
    }

    method SetApproval(sid: string, approval: bool, ctx: Context) returns (done: bool)
      requires Valid()
      modifies this
      ensures Valid() && (identityKeys, done) == IdentityKeys.SetApproval(old(identityKeys), ctx, sid, approval)
    {
      var found := GetOrMigrateIdentityRecord(sid, ctx);
      if found.None? { return false; }
      SaveIdentityKey(found.value.(nonblockingApproval := approval));
      done := true;
    }

    method SetVerified(sid: string, status: Status, firstUse: Option<bool>, approval: Option<bool>, ctx: Context)
      returns (done: bool)
      requires Valid()
      modifies this
      ensures Valid()
      ensures (identityKeys, done) == IdentityKeys.SetVerified(old(identityKeys), ctx, sid, status, firstUse, approval)
    {
      var found := GetOrMigrateIdentityRecord(sid, ctx);
      if found.None? || !found.value.Validates() { return false; }
      var rec := found.value.(verified := status);
      if firstUse.Some? { rec := rec.(firstUse := firstUse.value); }
      if approval.Some? { rec := rec.(nonblockingApproval := approval.value); }
      SaveIdentityKey(rec);
      done := true;
    }

    method UpdateIdentityAfterSync(sid: string, status: Status, key: Key, ctx: Context, now: Time)
      returns (shouldAddVerifiedChangedMessage: bool)
      requires Valid()
      modifies this
      ensures Valid()
      ensures
        (identityKeys, shouldAddVerifiedChangedMessage)
        == UpdateAfterSync(old(identityKeys), ctx, sid, status, key, now)
    {
      var found := GetOrMigrateIdentityRecord(sid, ctx);
      var hadEntry := found.Some?;
      var keyMatches := hadEntry && found.value.publicKey == Some(key);
      var statusMatches := keyMatches && status == found.value.verified;
      if !keyMatches || !statusMatches {
        SaveIdentityKey(IdentityRecord(sid, Some(key), !hadEntry, now, status, true));
      }
      // Only a status that changed for the same key is worth a message.
      if hadEntry && !keyMatches { return false; }
      if status == Verified && (!hadEntry || found.value.verified != Verified) { return true; }
      if status != Verified && hadEntry && found.value.verified == Verified { return true; }
      return false;
    }
  }
}
