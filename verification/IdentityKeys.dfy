/**
 Identity records of ts/SignalProtocolStore.preload.ts: one key per contact with its verified
 status, changed by messages, by the user and by other devices of the user.
 */
module IdentityKeys {
  import opened Wrappers
  import opened KeyIds

  type Key = seq<Byte>

  /** What the clock of the system returns, in milliseconds. */
  type Time = t: int | t > 0 witness 1

  const TimestampThreshold := 5 * 1000

  datatype Status = Default | Verified | Unverified

  /** Records may lack a key; only those with one and a positive timestamp pass validation. */
  datatype IdentityRecord = IdentityRecord(
    id: string,
    publicKey: Option<Key>,
    firstUse: bool,
    timestamp: int,
    verified: Status,
    nonblockingApproval: bool)
  {
    predicate Validates() { publicKey.Some? && timestamp > 0 }
  }

  type Records = map<string, IdentityRecord>

  predicate Filed(r: Records) { forall id :: id in r ==> r[id].id == id }

  /** What the rest of the application knows: conversations by service id, and who is ourselves. */
  datatype Context = Context(conversationOf: map<string, string>, ours: set<string>)

  datatype Change = NewOrUnchanged | ReplacedExisting

  /** Key under which a record made before service ids is filed. */
  function OldId(conversationId: string): string { "conversation:" + conversationId }

  /** The old record that `getOrMigrateIdentityRecord` will file under the service id. */
  function Migrated(r: Records, ctx: Context, sid: string): Option<string> {
    if sid in r || sid !in ctx.conversationOf then None
    else
      var oldId := OldId(ctx.conversationOf[sid]);
      if oldId in r then Some(oldId) else None
  }

  function Migrate(r: Records, ctx: Context, sid: string): Records {
    var from := Migrated(r, ctx, sid);
    if from.None? then r else r[sid := r[from.value].(id := sid)] - {from.value}
  }

  predicate ApprovalRequired(rec: IdentityRecord, now: Time) {
    !rec.firstUse && rec.timestamp > now - TimestampThreshold && !rec.nonblockingApproval
  }

  predicate SameButApproval(a: IdentityRecord, b: IdentityRecord) {
    && a.id == b.id && a.publicKey == b.publicKey && a.firstUse == b.firstUse && a.timestamp == b.timestamp
    && a.verified == b.verified
  }

  /** A changed key loses its standing, but not the fact that it once had one. */
  function StatusAfterChange(s: Status): Status {
    match s
    case Verified => Unverified
    case Unverified => Unverified
    case Default => Default
  }

  /** `saveIdentity`. */
  function SaveIdentity(
    r0: Records, ctx: Context, sid: string, key: Key, approval: bool, noOverwrite: bool, now: Time)
    : (res: (Records, Change))
    // A key is replaced exactly if there is another one, overwriting is allowed, and it is not our own.
    ensures
      var r := Migrate(r0, ctx, sid);
      res.1 == ReplacedExisting <==>
        sid in r && r[sid].publicKey.Some? && r[sid].publicKey != Some(key) && !noOverwrite && sid !in ctx.ours
    // A replaced key loses its standing, but not the fact that it once had one, and is not a first use.
    ensures
      var r := Migrate(r0, ctx, sid);
      res.1 == ReplacedExisting ==>
        && sid in r && sid in res.0 && res.0[sid].publicKey == Some(key)
        && (res.0[sid].verified == Unverified <==> r[sid].verified != Default)
        && (res.0[sid].verified == Default <==> r[sid].verified == Default)
        && !res.0[sid].firstUse && res.0[sid].timestamp == now && res.0[sid].nonblockingApproval == approval
    // So it needs approval until the threshold has passed, unless that was given.
    ensures
      res.1 == ReplacedExisting ==>
        forall t: Time :: ApprovalRequired(res.0[sid], t) <==> !approval && t < now + TimestampThreshold
    // Otherwise a contact without a key gets this one unverified, and it never needs approval.
    ensures
      var r := Migrate(r0, ctx, sid);
      res.1 == NewOrUnchanged && (sid !in r || r[sid].publicKey.None?) ==>
        && sid in res.0 && res.0[sid].publicKey == Some(key) && res.0[sid].verified == Default
        && res.0[sid].firstUse && res.0[sid].timestamp == now && res.0[sid].nonblockingApproval == approval
        && forall t: Time :: !ApprovalRequired(res.0[sid], t)
    // And one that has a key keeps its record, but for the approval if that is required and the key is the same.
    ensures
      var r := Migrate(r0, ctx, sid);
      res.1 == NewOrUnchanged && sid in r && r[sid].publicKey.Some? ==>
        && sid in res.0 && SameButApproval(res.0[sid], r[sid])
        && res.0[sid].nonblockingApproval
           == if r[sid].publicKey == Some(key) && !noOverwrite && ApprovalRequired(r[sid], now)
              then approval else r[sid].nonblockingApproval
    ensures res.0 - {sid} == Migrate(r0, ctx, sid) - {sid}
  {
    var r := Migrate(r0, ctx, sid);
    if sid !in r || r[sid].publicKey.None? then
      (r[sid := IdentityRecord(sid, Some(key), true, now, Default, approval)], NewOrUnchanged)
    else if noOverwrite then (r, NewOrUnchanged)
    else if r[sid].publicKey.value != key then
      if sid in ctx.ours then (r, NewOrUnchanged)
      else
        (r[sid := IdentityRecord(sid, Some(key), false, now, StatusAfterChange(r[sid].verified), approval)],
         ReplacedExisting)
    else if ApprovalRequired(r[sid], now) then (r[sid := r[sid].(nonblockingApproval := approval)], NewOrUnchanged)
    else (r, NewOrUnchanged)
  }

  /** `setApproval`; false where it throws. */
  function SetApproval(r0: Records, ctx: Context, sid: string, approval: bool): (res: (Records, bool))
    ensures res.1 <==> sid in r0 || Migrated(r0, ctx, sid).Some?
    // Afterwards the key needs approval only if that is what was said, and no sooner or later than before.
    ensures
      var r := Migrate(r0, ctx, sid);
      res.1 ==>
        && sid in r && sid in res.0 && SameButApproval(res.0[sid], r[sid])
        && res.0[sid].nonblockingApproval == approval
        && forall t: Time ::
             ApprovalRequired(res.0[sid], t)
             <==> !approval && !r[sid].firstUse && t < r[sid].timestamp + TimestampThreshold
    ensures !res.1 ==> res.0 == r0
    ensures res.0 - {sid} == Migrate(r0, ctx, sid) - {sid}
  {
    var r := Migrate(r0, ctx, sid);
    if sid !in r then (r, false) else (r[sid := r[sid].(nonblockingApproval := approval)], true)
  }

  /** `setVerified`, with the extra attributes a caller may set; false where it throws. */
  function SetVerified(
    r0: Records, ctx: Context, sid: string, status: Status, firstUse: Option<bool>, approval: Option<bool>)
    : (res: (Records, bool))
    ensures
      var r := Migrate(r0, ctx, sid);
      res.1 <==> sid in r && r[sid].publicKey.Some? && r[sid].timestamp > 0
    // Key and time stay; marking alone changes the status alone.
    ensures
      var r := Migrate(r0, ctx, sid);
      res.1 ==>
        && sid in res.0 && res.0[sid].verified == status && res.0[sid].id == r[sid].id
        && res.0[sid].publicKey == r[sid].publicKey && res.0[sid].timestamp == r[sid].timestamp
        && (if firstUse.Some? then firstUse == Some(res.0[sid].firstUse) else res.0[sid].firstUse == r[sid].firstUse)
        && (if approval.Some? then approval == Some(res.0[sid].nonblockingApproval)
            else res.0[sid].nonblockingApproval == r[sid].nonblockingApproval)
    ensures !res.1 ==> res.0 == Migrate(r0, ctx, sid)
    ensures res.0 - {sid} == Migrate(r0, ctx, sid) - {sid}
  {
    var r := Migrate(r0, ctx, sid);
    if sid !in r || !r[sid].Validates() then (r, false)
    else
      var rec := r[sid];
      (r[sid := rec.(
           firstUse := if firstUse.Some? then firstUse.value else rec.firstUse,
           nonblockingApproval := if approval.Some? then approval.value else rec.nonblockingApproval,
           verified := status)], true)
  }

  predicate KeyMatches(r: Records, sid: string, key: Key) { sid in r && r[sid].publicKey == Some(key) }

  /** `updateIdentityAfterSync`, with whether the conversation should show that the status changed. */
  function UpdateAfterSync(
    r0: Records, ctx: Context, sid: string, status: Status, key: Key, now: Time): (res: (Records, bool))
    ensures sid in res.0 && res.0[sid].publicKey == Some(key) && res.0[sid].verified == status
    // The record stays as it is if it said so already; else it is dated now and approved.
    ensures
      var r := Migrate(r0, ctx, sid);
      if sid in r && r[sid].publicKey == Some(key) && r[sid].verified == status
      then res.0 == r
      else
        && res.0[sid].timestamp == now && res.0[sid].nonblockingApproval && (res.0[sid].firstUse <==> sid !in r)
        && forall t: Time :: !ApprovalRequired(res.0[sid], t)
    ensures res.0 - {sid} == Migrate(r0, ctx, sid) - {sid}
    // A message is due exactly if being verified changed and the key did not.
    ensures
      var r := Migrate(r0, ctx, sid);
      res.1 <==>
        if sid !in r then status == Verified
        else r[sid].publicKey == Some(key) && (r[sid].verified == Verified) != (status == Verified)
  {
    var r := Migrate(r0, ctx, sid);
    var had := sid in r;
    var keyMatches := KeyMatches(r, sid, key);
    var r' := if keyMatches && r[sid].verified == status then r
              else r[sid := IdentityRecord(sid, Some(key), !had, now, status, true)];
    (r', (had ==> keyMatches) && ((status == Verified) != (had && r[sid].verified == Verified)))
  }
}
