/**
 All calls of `withZone` on one store, interleaved at every `await`: what each step of any
 run keeps true of the lock and of who holds it.
 */
module ZoneMachine {
  import opened Wrappers
  import opened Lists
  import opened ZoneLock

  /** One pending write; records of used kyber prekeys are those that a revert does not clear. */
  datatype Item = Item(job: Job, number: nat, kyberUse: bool)

  /**
   A call is storing while its body awaits a commit of its own. One whose top-level commit threw is
   stuck: it is over, but it never left the zone.
   */
  datatype Phase = Waiting | Running | Storing | Committing | Reverting | Finished | Stuck

  /** `parent` is the call whose body awaits this one. */
  datatype Call = Call(zone: Zone, parent: Option<Job>, phase: Phase)

  /**
   Besides the lock and the calls: the order in which calls were queued and let in; what was written
   so far, and what of it is pending, taken by the commits under way, and in the database; which
   call is committing or reverting at the top level, and who came in since it began to.
   */
  datatype World = World(
    lock: Lock,
    calls: map<Job, Call>,
    queued: seq<Job>,
    letIn: seq<Job>,
    count: nat,
    pending: set<Item>,
    taken: map<Job, set<Item>>,
    durable: set<Item>,
    ending: Option<Job>,
    late: set<Job>)

  datatype Event =
    | Begin(job: Job, zone: Zone, parent: Option<Job>)
    | Write(job: Job, kyberUse: bool)
    | CommitInside(job: Job)
    | InnerDone(job: Job)
    | InnerFails(job: Job)
    | BodyReturns(job: Job)
    | BodyThrows(job: Job)
    | Committed(job: Job)
    | CommitFails(job: Job)
    | Reverted(job: Job)

  predicate Holding(p: Phase) { p.Running? || p.Storing? || p.Committing? || p.Reverting? || p.Stuck? }

  /** A commit of this call is under way. */
  predicate Saving(p: Phase) { p.Storing? || p.Committing? }

  /** In such a zone no write is committed before the zone ends. */
  predicate HoldsAllBack(zone: Zone) {
    && zone.pendingKyberPreKeysToRemove && zone.pendingPreKeysToRemove && zone.pendingSenderKeys
    && zone.pendingSessions && zone.pendingUnprocessed
  }

  predicate Settled(p: Phase) { p.Finished? || p.Stuck? }

  function Holders(calls: map<Job, Call>): set<Job> { set j | j in calls && Holding(calls[j].phase) }

  function Jobs(queue: seq<Waiter>): seq<Job> { seq(|queue|, i requires 0 <= i < |queue| => queue[i].job) }

  predicate InPhase(w: World, j: Job, p: Phase) { j in w.calls && w.calls[j].phase == p }

  /** Nothing the body of `j` awaits is still going on. */
  ghost predicate BodyFree(w: World, j: Job) {
    forall k :: k in w.calls && w.calls[k].parent == Some(j) ==> Settled(w.calls[k].phase)
  }

  ghost predicate Enabled(w: World, e: Event) {
    match e
    case Begin(j, _, parent) =>
      (forall k :: k in w.calls ==> k < j) && (parent.Some? ==> InPhase(w, parent.value, Running))
    case Write(j, _) => InPhase(w, j, Running)
    case CommitInside(j) => InPhase(w, j, Running) && BodyFree(w, j) && !HoldsAllBack(w.calls[j].zone)
    case InnerDone(j) => InPhase(w, j, Storing)
    case InnerFails(j) => InPhase(w, j, Storing)
    case BodyReturns(j) => InPhase(w, j, Running) && BodyFree(w, j)
    case BodyThrows(j) => InPhase(w, j, Running) && BodyFree(w, j)
    case Committed(j) => InPhase(w, j, Committing)
    case CommitFails(j) => InPhase(w, j, Committing)
    case Reverted(j) => InPhase(w, j, Reverting)
  }

  function WithPhase(calls: map<Job, Call>, j: Job, p: Phase): map<Job, Call>
    requires j in calls
  {
    calls[j := calls[j].(phase := p)]
  }

  function Admit(calls: map<Job, Call>, batch: seq<Waiter>): map<Job, Call> {
    map j | j in calls :: if j in Jobs(batch) then calls[j].(phase := Running) else calls[j]
  }

  /** A call is over and leaves the zone, perhaps letting others in. */
  function Depart(w: World, j: Job): World
    requires j in w.calls && w.lock.depth > 0
  {
    var (lock, batch) := Leave(w.lock);
    w.(lock := lock,
       calls := Admit(WithPhase(w.calls, j, Finished), batch),
       letIn := w.letIn + Jobs(batch),
       taken := w.taken - {j},
       ending := if w.ending == Some(j) then None else w.ending)
  }

  function Uses(items: set<Item>): set<Item> { set x | x in items && x.kyberUse }

  /** What the commit of this call took. */
  function TakenBy(w: World, j: Job): set<Item> { if j in w.taken then w.taken[j] else {} }

  /** At the top level the pending writes are taken or dropped at once, then the database is awaited. */
  function EndBody(w: World, j: Job, p: Phase): World
    requires j in w.calls && w.lock.depth > 0
  {
    if w.lock.depth == 1 then
      w.(calls := WithPhase(w.calls, j, p),
         pending := if p.Committing? then {} else Uses(w.pending),
         taken := if p.Committing? then w.taken[j := w.pending] else w.taken,
         ending := Some(j), late := {})
    else Depart(w, j)
  }

  function Step(w: World, e: Event): World
    requires Enabled(w, e) && (!e.Begin? ==> w.lock.depth > 0)
  {
    match e
    case Begin(j, zone, parent) =>
      if MustWait(w.lock, zone) then
        w.(lock := w.lock.(queue := w.lock.queue + [Waiter(zone, j)]),
           calls := w.calls[j := Call(zone, parent, Waiting)],
           queued := w.queued + [j])
      else
        w.(lock := Enter(w.lock, zone),
           calls := w.calls[j := Call(zone, parent, Running)],
           late := if w.ending.Some? then w.late + {j} else w.late)
    case Write(j, use) => w.(pending := w.pending + {Item(j, w.count, use)}, count := w.count + 1)
    case CommitInside(j) => w.(calls := WithPhase(w.calls, j, Storing), taken := w.taken[j := w.pending], pending := {})
    case InnerDone(j) =>
      w.(calls := WithPhase(w.calls, j, Running), taken := w.taken - {j}, durable := w.durable + TakenBy(w, j))
    case InnerFails(j) => w.(calls := WithPhase(w.calls, j, Running), taken := w.taken - {j})
    case BodyReturns(j) => EndBody(w, j, Committing)
    case BodyThrows(j) => EndBody(w, j, Reverting)
    case Committed(j) => Depart(w, j).(durable := w.durable + TakenBy(w, j))
    case CommitFails(j) => w.(calls := WithPhase(w.calls, j, Stuck), taken := w.taken - {j}, ending := None)
    case Reverted(j) => Depart(w, j)
  }

  function Start(): World { World(Lock(None, 0, []), map[], [], [], 0, {}, map[], {}, None, {}) }

  // ---------------------------------------------------------------- the invariant

  /** The depth counts the calls that hold the zone, and all of them hold the current one. */
  ghost predicate Exclusive(lock: Lock, calls: map<Job, Call>) {
    && Sane(lock) && lock.depth == |Holders(calls)|
    && forall j :: j in calls && Holding(calls[j].phase) ==> lock.currentZone == Some(calls[j].zone)
  }

  /** The queue is exactly the waiting calls, each once. */
  ghost predicate Queued(queue: seq<Waiter>, calls: map<Job, Call>) {
    && NoDuplicates(Jobs(queue))
    && (forall i :: 0 <= i < |queue| ==>
          queue[i].job in calls && calls[queue[i].job].phase == Waiting && calls[queue[i].job].zone == queue[i].zone)
    && (forall j :: j in calls && calls[j].phase == Waiting ==> j in Jobs(queue))
  }

  /** At most one call commits or reverts at a time. */
  ghost predicate OneEnding(ending: Option<Job>, calls: map<Job, Call>) {
    forall j :: j in calls ==> ((calls[j].phase.Committing? || calls[j].phase.Reverting?) <==> ending == Some(j))
  }

  /** Whoever awaits an unsettled call is still running its body. */
  ghost predicate Nested(calls: map<Job, Call>) {
    forall j :: j in calls && calls[j].parent.Some? ==>
      && calls[j].parent.value < j
      && (!Settled(calls[j].phase) ==>
            calls[j].parent.value in calls && calls[calls[j].parent.value].phase == Running)
  }

  /** While a call is ending, only calls that came in since run and write; a revert leaves used kyber prekeys. */
  ghost predicate LateOnly(w: World) {
    w.ending.Some? ==>
      && w.ending.value in w.calls
      && (forall j :: j in w.calls && (w.calls[j].phase.Running? || w.calls[j].phase.Storing?) ==> j in w.late)
      && (forall x <- w.pending :: x.job in w.late || (x.kyberUse && w.calls[w.ending.value].phase.Reverting?))
  }

  /** A write was made before and is in one place at most. */
  ghost predicate Ledger(count: nat, pending: set<Item>, taken: map<Job, set<Item>>, durable: set<Item>) {
    && (forall x <- pending :: x.number < count) && (forall x <- durable :: x.number < count)
    && pending !! durable
    && (forall j :: j in taken ==>
         taken[j] !! pending && taken[j] !! durable && forall x <- taken[j] :: x.number < count)
    && (forall j, k :: j in taken && k in taken && j != k ==> taken[j] !! taken[k])
  }

  /** Exactly the commits under way have taken some, and inside a body only in zones that do not hold all back. */
  ghost predicate TakenBySavers(taken: map<Job, set<Item>>, calls: map<Job, Call>) {
    && (forall j :: j in taken <==> j in calls && Saving(calls[j].phase))
    && (forall j :: j in calls && calls[j].phase.Storing? ==> !HoldsAllBack(calls[j].zone))
  }

  ghost predicate Inv(w: World) {
    && Exclusive(w.lock, w.calls) && Queued(w.lock.queue, w.calls) && Nested(w.calls)
    && OneEnding(w.ending, w.calls) && LateOnly(w)
    && Ledger(w.count, w.pending, w.taken, w.durable) && TakenBySavers(w.taken, w.calls)
    && w.queued == w.letIn + Jobs(w.lock.queue)
  }

  lemma HolderCounts(w: World, j: Job)
    requires Inv(w) && j in w.calls && Holding(w.calls[j].phase)
    ensures w.lock.depth > 0 && (w.lock.depth == 1 ==> Holders(w.calls) == {j})
  {
    assert j in Holders(w.calls);
    if w.lock.depth == 1 { OnlyOne(Holders(w.calls), j); }
  }

  lemma OnlyOne(s: set<Job>, j: Job)
    requires j in s && |s| == 1
    ensures s == {j}
  {
    assert s == {j} + (s - {j});
  }

  lemma StartInv()
    ensures Inv(Start())
  {}

  // ---------------------------------------------------------------- steps

  lemma BeginNested(calls: map<Job, Call>, j: Job, call: Call)
    requires Nested(calls) && forall k :: k in calls ==> k < j
    requires call.parent.Some? ==> call.parent.value in calls && calls[call.parent.value].phase == Running
    ensures Nested(calls[j := call])
  {}

  lemma WaitQueued(queue: seq<Waiter>, calls: map<Job, Call>, j: Job, zone: Zone, parent: Option<Job>)
    requires Queued(queue, calls) && j !in calls
    ensures Queued(queue + [Waiter(zone, j)], calls[j := Call(zone, parent, Waiting)])
    ensures Jobs(queue + [Waiter(zone, j)]) == Jobs(queue) + [j]
  {
    assert Jobs(queue + [Waiter(zone, j)]) == Jobs(queue) + [j];
  }

  lemma EnterQueued(queue: seq<Waiter>, calls: map<Job, Call>, j: Job, call: Call)
    requires Queued(queue, calls) && j !in calls && call.phase == Running
    ensures Queued(queue, calls[j := call]) && |Holders(calls[j := call])| == |Holders(calls)| + 1
  {
    assert Holders(calls[j := call]) == Holders(calls) + {j};
  }

  lemma EnterEnds(calls: map<Job, Call>, taken: map<Job, set<Item>>, ending: Option<Job>, j: Job, call: Call)
    requires OneEnding(ending, calls) && TakenBySavers(taken, calls) && j !in calls && call.phase == Running
    requires ending.Some? ==> ending.value in calls
    ensures OneEnding(ending, calls[j := call]) && TakenBySavers(taken, calls[j := call])
  {}

  lemma WaitEnds(calls: map<Job, Call>, taken: map<Job, set<Item>>, ending: Option<Job>, j: Job, call: Call)
    requires OneEnding(ending, calls) && TakenBySavers(taken, calls) && j !in calls && call.phase == Waiting
    requires ending.Some? ==> ending.value in calls
    ensures OneEnding(ending, calls[j := call]) && TakenBySavers(taken, calls[j := call])
    ensures Holders(calls[j := call]) == Holders(calls)
  {}

  lemma WaitKeepsInv(w: World, j: Job, zone: Zone, parent: Option<Job>)
    requires Inv(w) && Enabled(w, Begin(j, zone, parent)) && MustWait(w.lock, zone)
    ensures Inv(Step(w, Begin(j, zone, parent)))
  {
    WaitEnds(w.calls, w.taken, w.ending, j, Call(zone, parent, Waiting));
    WaitQueued(w.lock.queue, w.calls, j, zone, parent);
    BeginNested(w.calls, j, Call(zone, parent, Waiting));
  }

  lemma EnterKeepsInv(w: World, j: Job, zone: Zone, parent: Option<Job>)
    requires Inv(w) && Enabled(w, Begin(j, zone, parent)) && !MustWait(w.lock, zone)
    ensures Inv(Step(w, Begin(j, zone, parent)))
  {
    EnterEnds(w.calls, w.taken, w.ending, j, Call(zone, parent, Running));
    EnterQueued(w.lock.queue, w.calls, j, Call(zone, parent, Running));
    BeginNested(w.calls, j, Call(zone, parent, Running));
  }

  lemma WriteKeepsInv(w: World, j: Job, use: bool)
    requires Inv(w) && Enabled(w, Write(j, use))
    ensures w.lock.depth > 0 && Inv(Step(w, Write(j, use)))
  {
    HolderCounts(w, j);
  }

  /** Calls that commit or are past their body await nothing else. */
  lemma EndingIsFree(w: World, j: Job)
    requires Inv(w) && (InPhase(w, j, Storing) || InPhase(w, j, Committing) || InPhase(w, j, Reverting))
    ensures BodyFree(w, j)
  {}

  /** A body begins or ends to await a commit of its own. */
  lemma RephasedKeeps(lock: Lock, calls: map<Job, Call>, ending: Option<Job>, j: Job, p: Phase)
    requires Exclusive(lock, calls) && Queued(lock.queue, calls) && Nested(calls) && OneEnding(ending, calls)
    requires j in calls && (calls[j].phase.Running? || calls[j].phase.Storing?) && (p.Running? || p.Storing?)
    requires forall k :: k in calls && calls[k].parent == Some(j) ==> Settled(calls[k].phase)
    ensures
      var r := WithPhase(calls, j, p);
      Exclusive(lock, r) && Queued(lock.queue, r) && Nested(r) && OneEnding(ending, r)
  {
    assert Holders(WithPhase(calls, j, p)) == Holders(calls);
  }

  lemma StoringKeepsInv(w: World, j: Job)
    requires Inv(w) && Enabled(w, CommitInside(j))
    ensures w.lock.depth > 0 && Inv(Step(w, CommitInside(j)))
  {
    HolderCounts(w, j);
    RephasedKeeps(w.lock, w.calls, w.ending, j, Storing);
    TakeAll(w.count, w.pending, w.taken, w.durable, w.calls, j, Storing);
  }

  lemma StoredTaken(taken: map<Job, set<Item>>, calls: map<Job, Call>, j: Job)
    requires TakenBySavers(taken, calls) && j in calls && calls[j].phase.Storing?
    ensures TakenBySavers(taken - {j}, WithPhase(calls, j, Running))
  {}

  lemma StoredLedger(w: World, j: Job, durable: set<Item>)
    requires Ledger(w.count, w.pending, w.taken, w.durable)
    requires durable == w.durable || durable == w.durable + TakenBy(w, j)
    ensures Ledger(w.count, w.pending, w.taken - {j}, durable)
  {}

  lemma StoredKeepsInv(w: World, e: Event)
    requires Inv(w) && (e.InnerDone? || e.InnerFails?) && Enabled(w, e)
    ensures w.lock.depth > 0 && Inv(Step(w, e))
  {
    HolderCounts(w, e.job);
    EndingIsFree(w, e.job);
    RephasedKeeps(w.lock, w.calls, w.ending, e.job, Running);
    StoredTaken(w.taken, w.calls, e.job);
    StoredLedger(w, e.job, Step(w, e).durable);
  }

  /** A commit takes all that is pending. */
  lemma TakeAll(
    count: nat, pending: set<Item>, taken: map<Job, set<Item>>, durable: set<Item>, calls: map<Job, Call>, j: Job,
    p: Phase)
    requires Ledger(count, pending, taken, durable) && TakenBySavers(taken, calls)
    requires j in calls && calls[j].phase.Running? && Saving(p) && (p.Storing? ==> !HoldsAllBack(calls[j].zone))
    ensures Ledger(count, {}, taken[j := pending], durable)
    ensures TakenBySavers(taken[j := pending], WithPhase(calls, j, p))
  {}

  lemma OnlyHolder(calls: map<Job, Call>, j: Job)
    requires Holders(calls) == {j}
    ensures forall k :: k in calls && Holding(calls[k].phase) ==> k == j
  {
    assert forall k :: k in calls && Holding(calls[k].phase) ==> k in Holders(calls);
  }

  lemma EndingCalls(lock: Lock, calls: map<Job, Call>, ending: Option<Job>, j: Job, p: Phase)
    requires Exclusive(lock, calls) && Queued(lock.queue, calls) && Nested(calls) && OneEnding(ending, calls)
    requires Holders(calls) == {j} && j in calls && calls[j].phase.Running? && (p.Committing? || p.Reverting?)
    requires forall k :: k in calls && calls[k].parent == Some(j) ==> Settled(calls[k].phase)
    ensures
      var r := WithPhase(calls, j, p);
      && Exclusive(lock, r) && Queued(lock.queue, r) && Nested(r) && OneEnding(Some(j), r)
      && forall k :: k in r ==> !r[k].phase.Running? && !r[k].phase.Storing?
  {
    OnlyHolder(calls, j);
    assert Holders(WithPhase(calls, j, p)) == Holders(calls);
  }

  /** The top level begins to end. */
  lemma EndingKeepsInv(w: World, j: Job, p: Phase)
    requires Inv(w) && InPhase(w, j, Running) && BodyFree(w, j) && w.lock.depth == 1
    requires p == Committing || p == Reverting
    ensures Inv(EndBody(w, j, p))
  {
    HolderCounts(w, j);
    EndingCalls(w.lock, w.calls, w.ending, j, p);
    if p.Committing? { TakeAll(w.count, w.pending, w.taken, w.durable, w.calls, j, p); }
  }

  lemma StuckKeepsInv(w: World, j: Job)
    requires Inv(w) && Enabled(w, CommitFails(j))
    ensures w.lock.depth > 0 && Inv(Step(w, CommitFails(j)))
  {
    HolderCounts(w, j);
    var r := Step(w, CommitFails(j));
    assert Holders(r.calls) == Holders(w.calls);
  }


  lemma JobsPlus(a: seq<Waiter>, b: seq<Waiter>)
    ensures Jobs(a + b) == Jobs(a) + Jobs(b)
  {}

  /** With the last holder gone, exactly the batch holds the zone. */
  lemma BatchHolds(w: World, j: Job, batch: seq<Waiter>, rest: seq<Waiter>)
    requires Inv(w) && j in w.calls && Holders(w.calls) == {j} && batch + rest == w.lock.queue
    requires batch != [] ==> forall b <- batch :: b.zone == batch[0].zone
    ensures
      var calls := Admit(WithPhase(w.calls, j, Finished), batch);
      && |Holders(calls)| == |batch|
      && (forall k :: k in calls && Holding(calls[k].phase) ==> batch != [] && calls[k].zone == batch[0].zone)
  {
    var calls := Admit(WithPhase(w.calls, j, Finished), batch);
    JobsPlus(batch, rest);
    PartsNoDuplicates(Jobs(batch), Jobs(rest));
    CountNoDuplicates(Jobs(batch));
    forall k
      ensures k in Holders(calls) <==> k in Jobs(batch)
    {
      if k in calls && k !in Jobs(batch) && k != j { assert k !in Holders(w.calls); }
      if k in Jobs(batch) { assert k in Jobs(w.lock.queue); }
    }
    assert Holders(calls) == Elements(Jobs(batch));
    forall k | k in calls && Holding(calls[k].phase)
      ensures batch != [] && calls[k].zone == batch[0].zone
    {
      assert k in Holders(calls);
      var i :| 0 <= i < |batch| && Jobs(batch)[i] == k;
      assert w.lock.queue[i] == batch[i] && batch[i] in batch;
    }
  }

  lemma RestQueued(w: World, j: Job, batch: seq<Waiter>, rest: seq<Waiter>)
    requires Inv(w) && InPhaseHolding(w, j) && batch + rest == w.lock.queue
    ensures Queued(rest, Admit(WithPhase(w.calls, j, Finished), batch))
  {
    var calls := Admit(WithPhase(w.calls, j, Finished), batch);
    JobsPlus(batch, rest);
    PartsNoDuplicates(Jobs(batch), Jobs(rest));
    forall i | 0 <= i < |rest|
      ensures rest[i].job in calls && calls[rest[i].job].phase == Waiting && calls[rest[i].job].zone == rest[i].zone
    {
      assert w.lock.queue[|batch| + i] == rest[i];
      assert Jobs(rest)[i] == rest[i].job && rest[i].job in Jobs(rest);
    }
  }

  predicate InPhaseHolding(w: World, j: Job) { j in w.calls && Holding(w.calls[j].phase) }

  /** Letting waiters in does not unsettle what was settled, nor settle anything but the call that leaves. */
  lemma AdmitNested(w: World, j: Job, batch: seq<Waiter>)
    requires Inv(w) && InPhaseHolding(w, j) && BodyFree(w, j) && (forall k <- Jobs(batch) :: InPhase(w, k, Waiting))
    ensures Nested(Admit(WithPhase(w.calls, j, Finished), batch))
    ensures OneEnding(if w.ending == Some(j) then None else w.ending, Admit(WithPhase(w.calls, j, Finished), batch))
  {}

  /** Who leaves has nothing taken any more. */
  lemma LeaverTaken(
    count: nat, pending: set<Item>, taken: map<Job, set<Item>>, durable: set<Item>, calls: map<Job, Call>, j: Job,
    batch: seq<Waiter>)
    requires Ledger(count, pending, taken, durable) && TakenBySavers(taken, calls) && j in calls
    requires !calls[j].phase.Storing?
    requires forall k <- Jobs(batch) :: k in calls && calls[k].phase.Waiting?
    ensures Ledger(count, pending, taken - {j}, durable)
    ensures TakenBySavers(taken - {j}, Admit(WithPhase(calls, j, Finished), batch))
  {}

  /** Leaving while others stay. */
  lemma DepartBelow(w: World, j: Job)
    requires Inv(w) && InPhaseHolding(w, j) && !w.calls[j].phase.Storing? && BodyFree(w, j) && w.lock.depth > 1
    ensures Inv(Depart(w, j))
  {
    BelowIs(w, j);
    FinishKeeps(w.calls, j, w.lock.queue);
    LeaverTaken(w.count, w.pending, w.taken, w.durable, w.calls, j, []);
  }

  lemma BelowIs(w: World, j: Job)
    requires j in w.calls && w.lock.depth > 1
    ensures Admit(WithPhase(w.calls, j, Finished), []) == WithPhase(w.calls, j, Finished)
    ensures
      Depart(w, j)
      == w.(lock := w.lock.(depth := w.lock.depth - 1), calls := WithPhase(w.calls, j, Finished),
            taken := w.taken - {j},
            ending := if w.ending == Some(j) then None else w.ending)
  {
    assert Jobs([]) == [];
    assert w.letIn + [] == w.letIn;
  }

  lemma FinishKeeps(calls: map<Job, Call>, j: Job, queue: seq<Waiter>)
    requires j in calls && Holding(calls[j].phase) && Queued(queue, calls) && Nested(calls)
    requires forall k :: k in calls && calls[k].parent == Some(j) ==> Settled(calls[k].phase)
    ensures
      var r := WithPhase(calls, j, Finished);
      Queued(queue, r) && Nested(r) && |Holders(r)| == |Holders(calls)| - 1
  {
    assert j in Holders(calls) && Holders(WithPhase(calls, j, Finished)) == Holders(calls) - {j};
  }

  /** The last holder leaves: the zone passes to the next batch, or is free. */
  lemma DepartLast(w: World, j: Job)
    requires Inv(w) && InPhaseHolding(w, j) && !w.calls[j].phase.Storing? && BodyFree(w, j) && w.lock.depth == 1
    requires w.ending == Some(j)
    ensures Inv(Depart(w, j))
  {
    var batch := Batch(w.lock.queue);
    var rest := Leave(w.lock).0.queue;
    HolderCounts(w, j);
    BatchIsMaximal(w.lock.queue);
    LeaveKeepsSane(w.lock);
    assert batch + rest == w.lock.queue;
    BatchWaits(w, batch, rest);
    BatchHolds(w, j, batch, rest);
    RestQueued(w, j, batch, rest);
    AdmitNested(w, j, batch);
    LeaverTaken(w.count, w.pending, w.taken, w.durable, w.calls, j, batch);
    assert Depart(w, j).calls == Admit(WithPhase(w.calls, j, Finished), batch);
  }

  lemma BatchWaits(w: World, batch: seq<Waiter>, rest: seq<Waiter>)
    requires Inv(w) && batch + rest == w.lock.queue
    ensures forall k <- Jobs(batch) :: InPhase(w, k, Waiting)
    ensures w.queued == w.letIn + Jobs(batch) + Jobs(rest)
  {
    JobsPlus(batch, rest);
    forall k | k in Jobs(batch)
      ensures InPhase(w, k, Waiting)
    {
      assert k in Jobs(w.lock.queue);
    }
  }

  lemma DepartKeepsInv(w: World, j: Job)
    requires Inv(w) && InPhaseHolding(w, j) && !w.calls[j].phase.Storing? && BodyFree(w, j)
    requires w.lock.depth == 1 ==> w.ending == Some(j)
    ensures w.lock.depth > 0 && Inv(Depart(w, j))
  {
    HolderCounts(w, j);
    if w.lock.depth > 1 { DepartBelow(w, j); } else { DepartLast(w, j); }
  }

  /** Every step of every interleaving keeps the invariant. */
  lemma StepKeepsInv(w: World, e: Event)
    requires Inv(w) && Enabled(w, e)
    ensures (!e.Begin? ==> w.lock.depth > 0) && Inv(Step(w, e))
  {
    match e
    case Begin(j, zone, parent) =>
      if MustWait(w.lock, zone) { WaitKeepsInv(w, j, zone, parent); } else { EnterKeepsInv(w, j, zone, parent); }
    case Write(j, use) => WriteKeepsInv(w, j, use);
    case CommitInside(j) => StoringKeepsInv(w, j);
    case InnerDone(j) => StoredKeepsInv(w, e);
    case InnerFails(j) => StoredKeepsInv(w, e);
    case BodyReturns(j) => BodyEndKeepsInv(w, j, Committing);
    case BodyThrows(j) => BodyEndKeepsInv(w, j, Reverting);
    case CommitFails(j) => StuckKeepsInv(w, j);
    case Committed(j) => EndedKeepsInv(w, j, w.durable + TakenBy(w, j));
    case Reverted(j) => EndedKeepsInv(w, j, w.durable);
  }

  lemma BodyEndKeepsInv(w: World, j: Job, p: Phase)
    requires Inv(w) && InPhase(w, j, Running) && BodyFree(w, j) && (p == Committing || p == Reverting)
    ensures w.lock.depth > 0 && Inv(EndBody(w, j, p))
  {
    HolderCounts(w, j);
    if w.lock.depth == 1 { EndingKeepsInv(w, j, p); } else { DepartKeepsInv(w, j); }
  }

  /** The last step of a call that ended at the top level. */
  lemma EndedKeepsInv(w: World, j: Job, durable: set<Item>)
    requires Inv(w) && (InPhase(w, j, Committing) || InPhase(w, j, Reverting))
    requires durable == w.durable || durable == w.durable + TakenBy(w, j)
    ensures w.lock.depth > 0 && Inv(Depart(w, j).(durable := durable))
  {
    EndingIsFree(w, j);
    DepartKeepsInv(w, j);
    StoredLedger(w, j, durable);
  }
}
