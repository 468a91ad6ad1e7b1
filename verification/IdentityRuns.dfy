/**
 Over any run of calls the record of a contact is what its own history says: verified only if somebody said so of
 the key it now has, and in need of approval only if a new key replaced another lately and nobody approved it.
 */
module IdentityRuns {
  import opened Wrappers
  import opened IdentityKeys

  datatype Call =
    | Save(sid: string, ctx: Context, key: Key, approval: bool, noOverwrite: bool, now: Time)
    | Approve(sid: string, ctx: Context, approval: bool)
    | Mark(sid: string, ctx: Context, status: Status, firstUse: Option<bool>, approvalOfMark: Option<bool>)
    | Sync(sid: string, ctx: Context, status: Status, key: Key, now: Time)

  function Do(r: Records, call: Call): Records {
    match call
    case Save(sid, ctx, key, approval, noOverwrite, now) => SaveIdentity(r, ctx, sid, key, approval, noOverwrite, now).0
    case Approve(sid, ctx, approval) => SetApproval(r, ctx, sid, approval).0
    case Mark(sid, ctx, status, firstUse, approval) => SetVerified(r, ctx, sid, status, firstUse, approval).0
    case Sync(sid, ctx, status, key, now) => UpdateAfterSync(r, ctx, sid, status, key, now).0
  }

  /** Migration carries the old record of the contact over as it is, if there is one, and touches no other. */
  lemma MigrateMoves(r: Records, ctx: Context, sid: string)
    requires Filed(r)
    ensures
      var m := Migrate(r, ctx, sid);
      Filed(m) &&
      if sid !in r && sid in ctx.conversationOf && "conversation:" + ctx.conversationOf[sid] in r then
        var from := "conversation:" + ctx.conversationOf[sid];
        && Migrated(r, ctx, sid) == Some(from) && sid in m && m[sid] == r[from].(id := sid) && from !in m
        && forall id :: id != sid && id != from ==> (id in m <==> id in r) && (id in r ==> m[id] == r[id])
      else
        m == r && Migrated(r, ctx, sid).None?
  {}

  // ---------------------------------------------------------------- the history of a contact

  /** What a record says of its contact; `since` is when its key was filed. */
  datatype Facts = Facts(key: Option<Key>, status: Status, firstUse: bool, since: int, approved: bool)

  /**
   What may happen to a contact: its record was there before the run, a message brought a new key, another device
   said which key and status it has, the user marked the key or said whether to go on with it.
   */
  datatype Note =
    | Found(facts: Facts)
    | NewKey(key: Key, at: Time, approved: bool)
    | Synced(key: Key, status: Status, at: Time)
    | Marked(key: Key, status: Status, firstUse: Option<bool>, approvedOfMark: Option<bool>)
    | Approved(approved: bool)

  type Trace = map<string, seq<Note>>

  function At(t: Trace, id: string): seq<Note> { if id in t then t[id] else [] }

  function Or<T>(said: Option<T>, was: T): T { if said.Some? then said.value else was }

  /** What a note makes of the record. */
  function Noted(before: Option<Facts>, n: Note): Option<Facts> {
    match n
    case Found(facts) => Some(facts)
    case NewKey(key, at, approved) =>
      if before.None? || before.value.key.None? then Some(Facts(Some(key), Default, true, at, approved))
      else Some(Facts(Some(key), StatusAfterChange(before.value.status), false, at, approved))
    case Synced(key, status, at) => Some(Facts(Some(key), status, before.None?, at, true))
    case Marked(key, status, firstUse, approved) =>
      if before.None? then None
      else
        var f := before.value;
        Some(Facts(Some(key), status, Or(firstUse, f.firstUse), f.since, Or(approved, f.approved)))
    case Approved(approved) => if before.None? then None else Some(before.value.(approved := approved))
  }

  /** The record as the history of a contact alone has it. */
  function Replay(h: seq<Note>): Option<Facts> {
    if h == [] then None else Noted(Replay(h[..|h| - 1]), h[|h| - 1])
  }

  /** The note files a key, or at least a record. */
  predicate Files(n: Note) { n.Found? || n.NewKey? || n.Synced? }

  /** A history starts with a record, which is found only then. */
  ghost predicate Proper(h: seq<Note>) { h != [] ==> Files(h[0]) && forall i :: 0 < i < |h| ==> !h[i].Found? }

  function MigrateTrace(t: Trace, r: Records, ctx: Context, sid: string): Trace {
    var from := Migrated(r, ctx, sid);
    if from.None? then t else t[sid := At(t, from.value)] - {from.value}
  }

  /** What a call adds to the history of the contact it is about. */
  function Notes(r: Records, call: Call): seq<Note> {
    match call
    case Save(sid, ctx, key, approval, noOverwrite, now) =>
      if sid !in r || r[sid].publicKey.None? then [NewKey(key, now, approval)]
      else if noOverwrite then []
      else if r[sid].publicKey == Some(key) then
        if approval && ApprovalRequired(r[sid], now) then [Approved(true)] else []
      else if sid in ctx.ours then []
      else [NewKey(key, now, approval)]
    case Approve(sid, _, approval) => if sid in r then [Approved(approval)] else []
    case Mark(sid, _, status, firstUse, approval) =>
      if sid in r && r[sid].Validates() then [Marked(r[sid].publicKey.value, status, firstUse, approval)] else []
    case Sync(sid, _, status, key, now) =>
      if KeyMatches(r, sid, key) && r[sid].verified == status then [] else [Synced(key, status, now)]
  }

  function TraceDo(t: Trace, r: Records, call: Call): Trace {
    var t' := MigrateTrace(t, r, call.ctx, call.sid);
    t'[call.sid := At(t', call.sid) + Notes(Migrate(r, call.ctx, call.sid), call)]
  }

  function FactsOf(rec: IdentityRecord): Facts {
    Facts(rec.publicKey, rec.verified, rec.firstUse, rec.timestamp, rec.nonblockingApproval)
  }

  function Standing(r: Records, id: string): Option<Facts> { if id in r then Some(FactsOf(r[id])) else None }

  /** The record says what the history says. */
  ghost predicate ToldOf(r: Records, t: Trace, id: string) {
    Standing(r, id) == Replay(At(t, id)) && Proper(At(t, id))
  }

  ghost predicate Told(r: Records, t: Trace) { Filed(r) && forall id :: ToldOf(r, t, id) }

  /** Where a run may start. */
  function FirstTrace(r: Records): Trace { map id | id in r :: [Found(FactsOf(r[id]))] }

  lemma FirstTold(r: Records)
    requires Filed(r)
    ensures Told(r, FirstTrace(r))
  {
    forall id
      ensures ToldOf(r, FirstTrace(r), id)
    {
      if id in r { ReplayNote([], Found(FactsOf(r[id]))); }
    }
  }

  lemma MigrateKeepsTold(r: Records, t: Trace, ctx: Context, sid: string)
    requires Told(r, t)
    ensures Told(Migrate(r, ctx, sid), MigrateTrace(t, r, ctx, sid))
  {
    MigrateMoves(r, ctx, sid);
    var r', t' := Migrate(r, ctx, sid), MigrateTrace(t, r, ctx, sid);
    forall id
      ensures ToldOf(r', t', id)
    {
      assert ToldOf(r, t, id);
      var from := Migrated(r, ctx, sid);
      if from.Some? { assert ToldOf(r, t, from.value); }
    }
  }

  lemma ReplayNote(h: seq<Note>, n: Note)
    ensures Replay(h + [n]) == Noted(Replay(h), n)
  {
    assert (h + [n])[..|h|] == h;
  }

  lemma {:induction false} ProperIsRecord(h: seq<Note>)
    requires Proper(h)
    ensures Replay(h).Some? <==> h != []
  {
    if h != [] {
      ProperCut(h);
      ProperIsRecord(h[..|h| - 1]);
    }
  }

  lemma ProperCut(h: seq<Note>)
    requires Proper(h) && h != []
    ensures Proper(h[..|h| - 1])
  {}

  lemma ProperPlus(h: seq<Note>, n: Note)
    requires Proper(h) && !n.Found? && (h == [] ==> Files(n))
    ensures Proper(h + [n])
  {}

  /** A call changes the record of its contact as its notes say ... */
  lemma CallNoted(r: Records, call: Call)
    ensures
      var m := Migrate(r, call.ctx, call.sid);
      var notes := Notes(m, call);
      && Standing(Do(r, call), call.sid)
         == (if notes == [] then Standing(m, call.sid) else Noted(Standing(m, call.sid), notes[0]))
      && |notes| <= 1
  {}

  /** ... which fit its history ... */
  lemma NotesFit(m: Records, call: Call, n: Note)
    requires Notes(m, call) == [n]
    ensures !n.Found? && (Standing(m, call.sid).None? ==> Files(n))
  {}

  /** ... and no other record. */
  lemma OthersUnchanged(r: Records, call: Call, id: string)
    requires id != call.sid
    ensures Standing(Do(r, call), id) == Standing(Migrate(r, call.ctx, call.sid), id)
  {}

  lemma CallKeepsFiled(r: Records, call: Call)
    requires Filed(r)
    ensures Filed(Do(r, call))
  {
    MigrateMoves(r, call.ctx, call.sid);
  }

  lemma NotesKeepTold(m: Records, u: Trace, r: Records, call: Call)
    requires ToldOf(m, u, call.sid)
    requires
      var notes := Notes(m, call);
      && |notes| <= 1
      && Standing(r, call.sid)
         == if notes == [] then Standing(m, call.sid) else Noted(Standing(m, call.sid), notes[0])
    ensures ToldOf(r, u[call.sid := At(u, call.sid) + Notes(m, call)], call.sid)
  {
    var h, notes := At(u, call.sid), Notes(m, call);
    if notes == [] {
      assert h + notes == h;
    } else {
      assert notes == [notes[0]];
      NotesFit(m, call, notes[0]);
      ProperIsRecord(h);
      ReplayNote(h, notes[0]);
      ProperPlus(h, notes[0]);
    }
  }

  lemma CallKeepsTold(r: Records, t: Trace, call: Call)
    requires Told(r, t)
    ensures Told(Do(r, call), TraceDo(t, r, call))
  {
    var m, u := Migrate(r, call.ctx, call.sid), MigrateTrace(t, r, call.ctx, call.sid);
    MigrateKeepsTold(r, t, call.ctx, call.sid);
    CallKeepsFiled(r, call);
    CallNoted(r, call);
    NotesKeepTold(m, u, Do(r, call), call);
    forall id | id != call.sid
      ensures ToldOf(Do(r, call), TraceDo(t, r, call), id)
    {
      assert ToldOf(m, u, id);
      OthersUnchanged(r, call, id);
    }
  }

  function Run(r: Records, calls: seq<Call>): Records
    decreases |calls|
  {
    if calls == [] then r else Run(Do(r, calls[0]), calls[1..])
  }

  function RunTrace(r: Records, t: Trace, calls: seq<Call>): Trace
    decreases |calls|
  {
    if calls == [] then t else RunTrace(Do(r, calls[0]), TraceDo(t, r, calls[0]), calls[1..])
  }

  lemma {:induction false} RunKeepsTold(r: Records, t: Trace, calls: seq<Call>)
    requires Told(r, t)
    ensures Told(Run(r, calls), RunTrace(r, t, calls))
    decreases |calls|
  {
    if calls != [] {
      CallKeepsTold(r, t, calls[0]);
      RunKeepsTold(Do(r, calls[0]), TraceDo(t, r, calls[0]), calls[1..]);
    }
  }

  // ---------------------------------------------------------------- who said what last

  /** The last note that says anything about it says `x`. */
  ghost predicate LastSaid<T(!new)>(said: seq<Option<T>>, x: T) {
    exists i :: 0 <= i < |said| && said[i] == Some(x) && forall j :: i < j < |said| ==> said[j].None?
  }

  lemma LastSaidPlus<T(!new)>(said: seq<Option<T>>, word: Option<T>, x: T)
    ensures LastSaid(said + [word], x) <==> word == Some(x) || (word.None? && LastSaid(said, x))
  {
    var all := said + [word];
    if LastSaid(all, x) {
      var i :| 0 <= i < |all| && all[i] == Some(x) && forall j :: i < j < |all| ==> all[j].None?;
      if i < |said| {
        assert all[|said|] == word;
        assert forall j :: i < j < |said| ==> said[j] == all[j];
        assert said[i] == Some(x);
      }
    }
    if word.None? && LastSaid(said, x) {
      var i :| 0 <= i < |said| && said[i] == Some(x) && forall j :: i < j < |said| ==> said[j].None?;
      assert forall j :: i < j < |all| ==> all[j].None?;
      assert all[i] == Some(x);
    }
    if word == Some(x) { assert all[|said|] == Some(x); }
  }

  predicate OfKey(n: Note) { n.NewKey? || n.Synced? || n.Marked? || (n.Found? && n.facts.key.Some?) }

  predicate HadKey(h: seq<Note>) { exists i :: 0 <= i < |h| && OfKey(h[i]) }

  function Approval(n: Note): Option<bool> {
    match n
    case Found(facts) => Some(facts.approved)
    case NewKey(_, _, approved) => Some(approved)
    case Synced(_, _, _) => Some(true)
    case Marked(_, _, _, approved) => approved
    case Approved(approved) => Some(approved)
  }

  /** A key from a message is a first use if there was none before, one from another device if there was no record. */
  function FirstUse(before: seq<Note>, n: Note): Option<bool> {
    match n
    case Found(facts) => Some(facts.firstUse)
    case NewKey(_, _, _) => Some(!HadKey(before))
    case Synced(_, _, _) => Some(before == [])
    case Marked(_, _, firstUse, _) => firstUse
    case Approved(_) => None
  }

  function Date(n: Note): Option<int> {
    match n
    case Found(facts) => Some(facts.since)
    case NewKey(_, at, _) => Some(at)
    case Synced(_, _, at) => Some(at)
    case Marked(_, _, _, _) => None
    case Approved(_) => None
  }

  function Approvals(h: seq<Note>): seq<Option<bool>> { seq(|h|, i requires 0 <= i < |h| => Approval(h[i])) }

  function FirstUses(h: seq<Note>): seq<Option<bool>> { seq(|h|, i requires 0 <= i < |h| => FirstUse(h[..i], h[i])) }

  function Dates(h: seq<Note>): seq<Option<int>> { seq(|h|, i requires 0 <= i < |h| => Date(h[i])) }

  lemma WordsPlus(h: seq<Note>, n: Note)
    ensures Approvals(h + [n]) == Approvals(h) + [Approval(n)] && Dates(h + [n]) == Dates(h) + [Date(n)]
    ensures FirstUses(h + [n]) == FirstUses(h) + [FirstUse(h, n)]
  {
    var g := h + [n];
    assert g[..|h|] == h;
    assert forall i :: 0 <= i < |h| ==> g[..i] == h[..i];
  }

  lemma {:induction false} KeyOfReplay(h: seq<Note>)
    requires Proper(h) && h != []
    ensures Replay(h).Some? && (Replay(h).value.key.Some? <==> HadKey(h))
  {
    var g, n := h[..|h| - 1], h[|h| - 1];
    assert h == g + [n];
    ProperIsRecord(h);
    ReplayNote(g, n);
    if g == [] {
      assert HadKey(h) <==> OfKey(n);
    } else {
      ProperCut(h);
      KeyOfReplay(g);
      assert HadKey(h) <==> HadKey(g) || OfKey(n) by {
        if HadKey(g) {
          var i :| 0 <= i < |g| && OfKey(g[i]);
          assert OfKey(h[i]);
        }
        assert h[|g|] == n;
      }
    }
  }

  lemma LastNote(h: seq<Note>)
    requires Proper(h) && h != []
    ensures
      var g, n := h[..|h| - 1], h[|h| - 1];
      && Proper(g) && (Replay(g).Some? <==> g != []) && Replay(h).Some? && Replay(h) == Noted(Replay(g), n)
      && (g == [] ==> Files(n)) && (n.Found? ==> g == [])
      && Approvals(h) == Approvals(g) + [Approval(n)] && Dates(h) == Dates(g) + [Date(n)]
      && FirstUses(h) == FirstUses(g) + [FirstUse(g, n)]
  {
    var g, n := h[..|h| - 1], h[|h| - 1];
    assert h == g + [n];
    ProperCut(h);
    ProperIsRecord(g);
    ProperIsRecord(h);
    WordsPlus(g, n);
  }

  /** Each fact of the record is what was last said of it. */
  lemma {:induction false} ApprovalReplay(h: seq<Note>)
    requires Proper(h) && h != []
    ensures Replay(h).Some?
    ensures forall x :: LastSaid(Approvals(h), x) <==> x == Replay(h).value.approved
  {
    var g, n := h[..|h| - 1], h[|h| - 1];
    LastNote(h);
    if g != [] {
      ApprovalReplay(g);
    }
    forall x
      ensures LastSaid(Approvals(h), x) <==> x == Replay(h).value.approved
    {
      LastSaidPlus(Approvals(g), Approval(n), x);
    }
  }

  lemma {:induction false} FirstUseReplay(h: seq<Note>)
    requires Proper(h) && h != []
    ensures Replay(h).Some?
    ensures forall x :: LastSaid(FirstUses(h), x) <==> x == Replay(h).value.firstUse
  {
    var g, n := h[..|h| - 1], h[|h| - 1];
    LastNote(h);
    if g != [] {
      FirstUseReplay(g);
      KeyOfReplay(g);
    }
    forall x
      ensures LastSaid(FirstUses(h), x) <==> x == Replay(h).value.firstUse
    {
      LastSaidPlus(FirstUses(g), FirstUse(g, n), x);
    }
  }

  lemma {:induction false} DateReplay(h: seq<Note>)
    requires Proper(h) && h != []
    ensures Replay(h).Some?
    ensures forall x :: LastSaid(Dates(h), x) <==> x == Replay(h).value.since
  {
    var g, n := h[..|h| - 1], h[|h| - 1];
    LastNote(h);
    if g != [] {
      DateReplay(g);
    }
    forall x
      ensures LastSaid(Dates(h), x) <==> x == Replay(h).value.since
    {
      LastSaidPlus(Dates(g), Date(n), x);
    }
  }

  // ---------------------------------------------------------------- approval

  /**
   Approval is required, exactly if the last that was said of first use and of approval is no, and the last date is
   younger than the threshold.
   */
  lemma ApprovalLastSaid(r: Records, t: Trace, calls: seq<Call>, id: string, now: Time)
    requires Told(r, t)
    ensures
      var end := Run(r, calls);
      var h := At(RunTrace(r, t, calls), id);
      id in end ==>
        (ApprovalRequired(end[id], now)
         <==> LastSaid(FirstUses(h), false) && LastSaid(Approvals(h), false)
              && exists at :: LastSaid(Dates(h), at) && now < at + 5000)
  {
    RunKeepsTold(r, t, calls);
    var end, h := Run(r, calls), At(RunTrace(r, t, calls), id);
    assert ToldOf(end, RunTrace(r, t, calls), id);
    if id in end {
      ProperIsRecord(h);
      ApprovalReplay(h);
      FirstUseReplay(h);
      DateReplay(h);
      assert LastSaid(Dates(h), end[id].timestamp);
    }
  }

  /**
   As the application calls it: whoever says anything of approval approves, a mark of first use comes with
   an approval, and what was found needs none.
   */
  ghost predicate OnlyApproves(n: Note) {
    match n
    case Found(facts) => facts.firstUse || facts.approved
    case NewKey(_, _, _) => true
    case Synced(_, _, _) => true
    case Marked(_, _, firstUse, approved) => (firstUse.None? && approved.None?) || approved == Some(true)
    case Approved(approved) => approved
  }

  /** A message brought a new key for another at this time, unapproved, and nobody approved it since. */
  ghost predicate Unapproved(h: seq<Note>, at: int) {
    exists i :: 0 <= i < |h| && Replaces(h, i, at) && forall j :: i < j < |h| ==> PlainMark(h[j])
  }

  ghost predicate UnapprovedLately(h: seq<Note>, now: Time) {
    exists at :: Unapproved(h, at) && now < at + 5000
  }

  predicate Replaces(h: seq<Note>, i: nat, at: int)
    requires i < |h|
  {
    h[i].NewKey? && h[i].at == at && !h[i].approved && HadKey(h[..i])
  }

  predicate PlainMark(n: Note) { n.Marked? && n.approvedOfMark.None? }

  lemma UnapprovedPlus(h: seq<Note>, n: Note, at: int)
    ensures
      Unapproved(h + [n], at)
      <==> (n.NewKey? && n.at == at && !n.approved && HadKey(h)) || (PlainMark(n) && Unapproved(h, at))
  {
    var all := h + [n];
    assert all[..|h|] == h && all[|h|] == n;
    if Unapproved(all, at) {
      var i :| 0 <= i < |all| && Replaces(all, i, at) && forall j :: i < j < |all| ==> PlainMark(all[j]);
      if i < |h| {
        assert all[..i] == h[..i] && PlainMark(all[|h|]);
        assert Replaces(h, i, at) && forall j :: i < j < |h| ==> h[j] == all[j];
      }
    }
    if PlainMark(n) && Unapproved(h, at) {
      var i :| 0 <= i < |h| && Replaces(h, i, at) && forall j :: i < j < |h| ==> PlainMark(h[j]);
      assert all[..i] == h[..i] && Replaces(all, i, at);
    }
    if n.NewKey? && n.at == at && !n.approved && HadKey(h) { assert Replaces(all, |h|, at); }
  }

  /** One note; `had` and `was` say whether there was a key, and one that was unapproved since then. */
  lemma NotedApproval(before: Option<Facts>, n: Note, at: int, had: bool, was: bool)
    requires OnlyApproves(n) && Noted(before, n).Some?
    requires had <==> before.Some? && before.value.key.Some?
    requires was <==> before.Some? && UnapprovedSince(before.value, at)
    ensures
      UnapprovedSince(Noted(before, n).value, at)
      <==> (n.NewKey? && n.at == at && !n.approved && had) || (PlainMark(n) && was)
  {}

  predicate UnapprovedSince(f: Facts, at: int) { !f.firstUse && !f.approved && f.since == at }

  lemma {:induction false} UnapprovedReplay(h: seq<Note>, at: int)
    requires Proper(h) && h != [] && forall i :: 0 <= i < |h| ==> OnlyApproves(h[i])
    ensures Replay(h).Some?
    ensures Unapproved(h, at) <==> UnapprovedSince(Replay(h).value, at)
  {
    var g, n := h[..|h| - 1], h[|h| - 1];
    assert h == g + [n];
    LastNote(h);
    UnapprovedPlus(g, n, at);
    if g != [] {
      UnapprovedReplay(g, at);
      KeyOfReplay(g);
    }
    NotedApproval(Replay(g), n, at, HadKey(g), Unapproved(g, at));
  }

  /** Then approval is required exactly of a key that replaced another within the threshold and that nobody approved. */
  lemma ApprovalIff(r: Records, t: Trace, calls: seq<Call>, id: string, now: Time)
    requires Told(r, t) && forall n <- At(RunTrace(r, t, calls), id) :: OnlyApproves(n)
    ensures
      var end := Run(r, calls);
      id in end ==>
        (ApprovalRequired(end[id], now)
         <==> UnapprovedLately(At(RunTrace(r, t, calls), id), now))
  {
    RunKeepsTold(r, t, calls);
    var end, h := Run(r, calls), At(RunTrace(r, t, calls), id);
    assert ToldOf(end, RunTrace(r, t, calls), id);
    if id in end {
      ProperIsRecord(h);
      UnapprovedReplay(h, end[id].timestamp);
      if UnapprovedLately(h, now) {
        var at :| Unapproved(h, at) && now < at + 5000;
        UnapprovedReplay(h, at);
      }
    }
  }

  // ---------------------------------------------------------------- verification

  predicate SaysStatus(n: Note) { n.Found? || n.Synced? || n.Marked? }

  function StatusSaid(n: Note): Status
    requires SaysStatus(n)
  {
    match n
    case Found(facts) => facts.status
    case Synced(_, status, _) => status
    case Marked(_, status, _, _) => status
  }

  function KeyOf(n: Note): Option<Key> {
    match n
    case Found(facts) => facts.key
    case NewKey(key, _, _) => Some(key)
    case Synced(key, _, _) => Some(key)
    case Marked(key, _, _, _) => Some(key)
    case Approved(_) => None
  }

  /** This note says that the key is verified, and after it there were at most approvals. */
  ghost predicate SaidVerified(h: seq<Note>, key: Option<Key>) {
    exists i :: 0 <= i < |h| && SaysVerified(h[i], key) && forall j :: i < j < |h| ==> h[j].Approved?
  }

  predicate SaysVerified(n: Note, key: Option<Key>) { SaysStatus(n) && StatusSaid(n) == Verified && KeyOf(n) == key }

  lemma SaidVerifiedPlus(h: seq<Note>, n: Note, key: Option<Key>)
    ensures SaidVerified(h + [n], key) <==> SaysVerified(n, key) || (n.Approved? && SaidVerified(h, key))
  {
    var all := h + [n];
    assert all[|h|] == n;
    if SaidVerified(all, key) {
      var i :| 0 <= i < |all| && SaysVerified(all[i], key) && forall j :: i < j < |all| ==> all[j].Approved?;
      if i < |h| {
        assert all[|h|].Approved? && SaysVerified(h[i], key);
        assert forall j :: i < j < |h| ==> h[j] == all[j];
      }
    }
    if n.Approved? && SaidVerified(h, key) {
      var i :| 0 <= i < |h| && SaysVerified(h[i], key) && forall j :: i < j < |h| ==> h[j].Approved?;
      assert SaysVerified(all[i], key);
    }
  }

  lemma {:induction false} VerifiedReplay(h: seq<Note>)
    requires Proper(h) && h != []
    ensures Replay(h).Some?
    ensures Replay(h).value.status == Verified <==> SaidVerified(h, Replay(h).value.key)
  {
    var g, n := h[..|h| - 1], h[|h| - 1];
    assert h == g + [n];
    LastNote(h);
    SaidVerifiedPlus(g, n, Replay(h).value.key);
    if g != [] { VerifiedReplay(g); }
  }

  /** Verified, exactly if somebody said so of the present key, and nothing happened since but approvals. */
  lemma VerifiedIffSaid(r: Records, t: Trace, calls: seq<Call>, id: string)
    requires Told(r, t)
    ensures
      var end := Run(r, calls);
      id in end ==>
        (end[id].verified == Verified <==> SaidVerified(At(RunTrace(r, t, calls), id), end[id].publicKey))
  {
    RunKeepsTold(r, t, calls);
    assert ToldOf(Run(r, calls), RunTrace(r, t, calls), id);
    if id in Run(r, calls) {
      ProperIsRecord(At(RunTrace(r, t, calls), id));
      VerifiedReplay(At(RunTrace(r, t, calls), id));
    }
  }
}
