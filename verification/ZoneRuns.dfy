/** Whole runs of the zone lock: exclusion, order, progress, and the three ways it goes wrong. */
module ZoneRuns {
  import opened Wrappers
  import opened Lists
  import opened ZoneLock
  import opened ZoneMachine

  ghost predicate Runs(w: World, es: seq<Event>, w': World)
    decreases |es|
  {
    if es == [] then w' == w
    else Enabled(w, es[0]) && (!es[0].Begin? ==> w.lock.depth > 0) && Runs(Step(w, es[0]), es[1..], w')
  }

  lemma {:induction false} RunKeepsInv(w: World, es: seq<Event>, w': World)
    requires Inv(w) && Runs(w, es, w')
    ensures Inv(w')
    decreases |es|
  {
    if es != [] {
      StepKeepsInv(w, es[0]);
      RunKeepsInv(Step(w, es[0]), es[1..], w');
    }
  }

  /** In every reachable state of every interleaving. */
  lemma ZoneExclusion(es: seq<Event>, w: World)
    requires Runs(Start(), es, w)
    ensures forall j :: j in w.calls && Holding(w.calls[j].phase) ==> w.lock.currentZone == Some(w.calls[j].zone)
    ensures w.lock.depth == |Holders(w.calls)| && (w.lock.depth == 0 <==> w.lock.currentZone.None?)
    ensures w.lock.queue != [] ==> w.lock.currentZone.Some? && w.lock.currentZone != Some(w.lock.queue[0].zone)
  {
    StartInv();
    RunKeepsInv(Start(), es, w);
  }

  /** No call is lost or run twice, and waiting calls go in in the order they came. */
  lemma QueueConserved(es: seq<Event>, w: World)
    requires Runs(Start(), es, w)
    ensures w.queued == w.letIn + Jobs(w.lock.queue) && NoDuplicates(Jobs(w.lock.queue))
    ensures forall j :: j in w.calls ==> (j in Jobs(w.lock.queue) <==> w.calls[j].phase == Waiting)
    ensures forall j :: j in w.calls ==>
        (j in Holders(w.calls) <==> w.calls[j].phase != Waiting && w.calls[j].phase != Finished)
  {
    StartInv();
    RunKeepsInv(Start(), es, w);
    forall j | j in Jobs(w.lock.queue)
      ensures j in w.calls && w.calls[j].phase == Waiting
    {
      var i :| 0 <= i < |w.lock.queue| && Jobs(w.lock.queue)[i] == j;
    }
  }

  /** A hand-over lets in the longest part of the queue that asks for one zone, and the queue gets shorter. */
  lemma HandOver(w: World, e: Event)
    requires Inv(w) && Enabled(w, e) && (e.Committed? || e.Reverted?) && w.lock.depth == 1 && w.lock.queue != []
    ensures
      var r := Step(w, e);
      var n := |w.lock.queue| - |r.lock.queue|;
      && n > 0 && r.lock.queue == w.lock.queue[n..] && r.lock.depth == n
      && (forall i :: 0 <= i < n ==> r.lock.currentZone == Some(w.lock.queue[i].zone))
      && (n < |w.lock.queue| ==> r.lock.currentZone != Some(w.lock.queue[n].zone))
      && r.letIn == w.letIn + Jobs(w.lock.queue[..n])
      && (forall i :: 0 <= i < n ==> InPhase(r, w.lock.queue[i].job, Running))
  {
    var r := Step(w, e);
    var batch := Batch(w.lock.queue);
    BatchIsMaximal(w.lock.queue);
    assert w.lock.queue[..|batch|] == batch;
    forall i | 0 <= i < |batch|
      ensures r.lock.currentZone == Some(w.lock.queue[i].zone) && InPhase(r, w.lock.queue[i].job, Running)
    {
      assert batch[i] == w.lock.queue[i] && Jobs(batch)[i] == w.lock.queue[i].job;
    }
  }

  // ---------------------------------------------------------------- progress

  /** Bodies only await calls for their own zone. */
  ghost predicate OwnZone(w: World) {
    forall j :: j in w.calls && w.calls[j].parent.Some? ==>
      && w.calls[j].phase != Waiting
      && w.calls[j].parent.value in w.calls && w.calls[w.calls[j].parent.value].zone == w.calls[j].zone
  }

  ghost predicate NoneStuck(w: World) { forall j :: j in w.calls ==> w.calls[j].phase != Stuck }

  lemma {:induction false} Greatest(s: set<Job>) returns (m: Job)
    requires s != {}
    ensures m in s && forall k <- s :: k <= m
    decreases |s|
  {
    var x :| x in s;
    var rest := s - {x};
    m := x;
    assert forall k <- s :: k == x || k in rest;
    if rest != {} {
      var y := Greatest(rest);
      if y > x { m := y; }
    }
  }

  /** Unless everything is finished, some call can take its next step without any new call. */
  lemma SomeoneCanGo(w: World, j: Job) returns (e: Event)
    requires Inv(w) && OwnZone(w) && NoneStuck(w) && j in w.calls && w.calls[j].phase != Finished
    ensures Enabled(w, e) && (e.InnerDone? || e.BodyReturns? || e.Committed? || e.Reverted?)
  {
    if w.calls[j].phase == Waiting {
      assert j in Jobs(w.lock.queue);
      assert w.lock.depth > 0;
    } else {
      assert j in Holders(w.calls);
    }
    var m := Greatest(Holders(w.calls));
    forall k | k in w.calls && w.calls[k].parent == Some(m)
      ensures Settled(w.calls[k].phase)
    {
      assert k !in Holders(w.calls);
    }
    match w.calls[m].phase
    case Running => e := BodyReturns(m);
    case Storing => e := InnerDone(m);
    case Committing => e := Committed(m);
    case Reverting => e := Reverted(m);
  }

  function Storers(calls: map<Job, Call>): set<Job> { set j | j in calls && calls[j].phase.Storing? }

  function LockRank(lock: Lock, ending: Option<Job>): int {
    3 * |lock.queue| + 2 * lock.depth - if ending.Some? then 1 else 0
  }

  function Rank(w: World): int { LockRank(w.lock, w.ending) + |Storers(w.calls)| }

  lemma RankIsNat(w: World)
    requires Inv(w)
    ensures Rank(w) >= 0
  {}

  /**
   A step of a call under way, not counting writes, new commits inside bodies and failing commits at the
   top level.
   */
  predicate Forward(e: Event) {
    e.InnerDone? || e.InnerFails? || e.BodyReturns? || e.BodyThrows? || e.Committed? || e.Reverted?
  }

  lemma AdmitStorers(calls: map<Job, Call>, j: Job, batch: seq<Waiter>)
    requires j in calls && !calls[j].phase.Storing?
    requires forall k <- Jobs(batch) :: k in calls && calls[k].phase == Waiting
    ensures Storers(Admit(WithPhase(calls, j, Finished), batch)) == Storers(calls)
  {}

  lemma RephasedStorers(calls: map<Job, Call>, j: Job, p: Phase)
    requires j in calls && !p.Storing?
    ensures Storers(WithPhase(calls, j, p)) == Storers(calls) - {j}
  {}

  lemma ForwardStorers(w: World, e: Event)
    requires Inv(w) && Enabled(w, e) && Forward(e) && w.lock.depth > 0
    ensures |Storers(Step(w, e).calls)| == |Storers(w.calls)| - if e.InnerDone? || e.InnerFails? then 1 else 0
  {
    if e.InnerDone? || e.InnerFails? {
      RephasedStorers(w.calls, e.job, Running);
      assert Step(w, e).calls == WithPhase(w.calls, e.job, Running);
    } else {
      EndStorers(w, e);
    }
  }

  lemma EndStorers(w: World, e: Event)
    requires Inv(w) && Enabled(w, e) && w.lock.depth > 0
    requires e.BodyReturns? || e.BodyThrows? || e.Committed? || e.Reverted?
    ensures Storers(Step(w, e).calls) == Storers(w.calls)
  {
    LeaverStorers(w, e.job);
    RephasedStorers(w.calls, e.job, if e.BodyThrows? then Reverting else Committing);
    assert !w.calls[e.job].phase.Storing?;
  }

  lemma LeaverStorers(w: World, j: Job)
    requires Inv(w) && j in w.calls && !w.calls[j].phase.Storing? && w.lock.depth > 0
    ensures Storers(Depart(w, j).calls) == Storers(w.calls)
  {
    var (lock, batch) := Leave(w.lock);
    BatchWaits(w, batch, lock.queue);
    AdmitStorers(w.calls, j, batch);
  }

  lemma ForwardRank(w: World, e: Event)
    requires Inv(w) && Enabled(w, e) && Forward(e)
    ensures w.lock.depth > 0 && Rank(Step(w, e)) < Rank(w)
  {
    HolderCounts(w, e.job);
    ForwardStorers(w, e);
    if w.lock.depth == 1 { EndingAlone(w, e); }
    ForwardLock(w, e);
  }

  lemma ForwardLock(w: World, e: Event)
    requires Enabled(w, e) && Forward(e) && w.lock.depth > 0
    requires w.lock.depth == 1 && (e.BodyReturns? || e.BodyThrows?) ==> w.ending.None?
    ensures
      var r := Step(w, e);
      if e.InnerDone? || e.InnerFails? then LockRank(r.lock, r.ending) == LockRank(w.lock, w.ending)
      else LockRank(r.lock, r.ending) < LockRank(w.lock, w.ending)
  {
    LeaveRank(w.lock);
  }

  lemma LeaveRank(l: Lock)
    requires l.depth > 0
    ensures LockRank(Leave(l).0, None) <= LockRank(l, None) - 2
  {}

  /** At the top level nobody else is ending. */
  lemma EndingAlone(w: World, e: Event)
    requires Inv(w) && Enabled(w, e) && Forward(e) && w.lock.depth == 1
    ensures e.BodyReturns? || e.BodyThrows? ==> w.ending.None?
  {
    HolderCounts(w, e.job);
    if w.ending.Some? { assert w.ending.value in Holders(w.calls); }
  }

  /** Only phases changed, and nobody was put in the queue or got stuck. */
  ghost predicate OnlyForward(calls: map<Job, Call>, r: map<Job, Call>) {
    && r.Keys == calls.Keys
    && forall k :: k in calls ==>
         var p := r[k].phase;
         r[k] == calls[k].(phase := p) && (p == calls[k].phase || !(p.Waiting? || p.Stuck?))
  }

  lemma AdmitForward(calls: map<Job, Call>, j: Job, batch: seq<Waiter>)
    requires j in calls
    ensures OnlyForward(calls, Admit(WithPhase(calls, j, Finished), batch))
  {}

  lemma ForwardFrame(w: World, e: Event)
    requires Enabled(w, e) && Forward(e) && w.lock.depth > 0
    ensures OnlyForward(w.calls, Step(w, e).calls)
  {
    AdmitForward(w.calls, e.job, Leave(w.lock).1);
  }

  lemma ForwardKeepsOwnZone(w: World, e: Event)
    requires Inv(w) && OwnZone(w) && NoneStuck(w) && Enabled(w, e) && Forward(e) && w.lock.depth > 0
    ensures OwnZone(Step(w, e)) && NoneStuck(Step(w, e))
  {
    ForwardFrame(w, e);
    KeepsOwnZone(w.calls, Step(w, e));
  }

  lemma KeepsOwnZone(calls: map<Job, Call>, r: World)
    requires OwnZone(r.(calls := calls)) && NoneStuck(r.(calls := calls)) && OnlyForward(calls, r.calls)
    ensures OwnZone(r) && NoneStuck(r)
  {}

  /** Without new calls and failing commits everything finishes, in at most `Rank` steps. */
  lemma {:induction false} EverythingFinishes(w: World) returns (es: seq<Event>, w': World)
    requires Inv(w) && OwnZone(w) && NoneStuck(w)
    ensures Runs(w, es, w') && |es| <= Rank(w) && forall j :: j in w'.calls ==> w'.calls[j].phase == Finished
    decreases if Rank(w) < 0 then 0 else Rank(w)
  {
    RankIsNat(w);
    es, w' := [], w;
    if j :| j in w.calls && w.calls[j].phase != Finished {
      var e := SomeoneCanGo(w, j);
      StepKeepsInv(w, e);
      ForwardRank(w, e);
      ForwardKeepsOwnZone(w, e);
      RankIsNat(Step(w, e));
      es, w' := EverythingFinishes(Step(w, e));
      assert ([e] + es)[1..] == es;
      es := [e] + es;
    }
  }

  /**
   And no run without new calls, writes, new commits inside bodies and failing top-level commits is longer
   than that.
   */
  lemma {:induction false} RunsEnd(w: World, es: seq<Event>, w': World)
    requires Inv(w) && Runs(w, es, w') && forall e <- es :: Forward(e)
    ensures |es| <= Rank(w)
    decreases |es|
  {
    RankIsNat(w);
    if es != [] {
      StepKeepsInv(w, es[0]);
      ForwardRank(w, es[0]);
      RunsEnd(Step(w, es[0]), es[1..], w');
    }
  }

  /** New calls keep the nesting in the own zone: what a running body awaits goes in at once. */
  lemma BeginKeepsOwnZone(w: World, j: Job, zone: Zone, parent: Option<Job>)
    requires Inv(w) && OwnZone(w) && Enabled(w, Begin(j, zone, parent))
    requires parent.Some? ==> w.calls[parent.value].zone == zone
    ensures OwnZone(Step(w, Begin(j, zone, parent)))
  {}

  // ---------------------------------------------------------------- a zone held forever

  lemma TwoHolders(w: World, s: Job, t: Job)
    requires Inv(w) && InPhaseHolding(w, s) && InPhaseHolding(w, t) && s != t
    ensures w.lock.depth > 1
  {
    HolderCounts(w, s);
    assert t in Holders(w.calls);
  }

  lemma AdmitNobody(calls: map<Job, Call>)
    ensures Jobs([]) == [] && Admit(calls, []) == calls
  {}

  /** As long as a call holds the zone and does not leave, nobody is let in. */
  lemma HeldStays(w: World, e: Event, s: Job)
    requires Inv(w) && Enabled(w, e) && s in w.calls && Holding(w.calls[s].phase) && w.lock.depth > 0
    requires e.Begin? || e.Write? || e.job != s
    ensures
      var r := Step(w, e);
      && s in r.calls && r.calls[s] == w.calls[s]
      && r.lock.currentZone == w.lock.currentZone && r.letIn == w.letIn
      && (forall k :: k in w.calls && w.calls[k].phase == Waiting ==> k in r.calls && r.calls[k] == w.calls[k])
  {
    if !e.Begin? && !e.Write? {
      TwoHolders(w, s, e.job);
      AdmitNobody(WithPhase(w.calls, e.job, Finished));
    }
  }

  /** A top-level commit that throws skips `#leaveZone`: the zone stays taken and no waiting call ever goes in. */
  lemma {:induction false} StuckForever(w: World, es: seq<Event>, w': World, s: Job)
    requires Inv(w) && Runs(w, es, w') && InPhase(w, s, Stuck)
    ensures InPhase(w', s, Stuck) && w'.lock.currentZone == w.lock.currentZone && w'.letIn == w.letIn
    ensures forall k :: InPhase(w, k, Waiting) ==> InPhase(w', k, Waiting)
    decreases |es|
  {
    if es != [] {
      HolderCounts(w, s);
      HeldStays(w, es[0], s);
      StepKeepsInv(w, es[0]);
      StuckForever(Step(w, es[0]), es[1..], w', s);
    }
  }

  /** A body that awaits a call for another zone waits on itself. */
  lemma {:induction false} WaitsOnItself(w: World, es: seq<Event>, w': World, p: Job, c: Job)
    requires Inv(w) && Runs(w, es, w') && InPhase(w, c, Waiting) && w.calls[c].parent == Some(p)
    ensures InPhase(w', p, Running) && InPhase(w', c, Waiting) && w'.letIn == w.letIn
    decreases |es|
  {
    if es != [] {
      assert InPhase(w, p, Running) && !BodyFree(w, p);
      HolderCounts(w, p);
      HeldStays(w, es[0], p);
      StepKeepsInv(w, es[0]);
      WaitsOnItself(Step(w, es[0]), es[1..], w', p, c);
    }
  }

  // ---------------------------------------------------------------- pending writes at release

  /** Nobody comes in while a call commits or reverts at the top level. */
  ghost predicate Orderly(w: World, e: Event) {
    e.Begin? && w.ending.Some? ==> MustWait(w.lock, e.zone)
  }

  ghost predicate OrderlyRun(w: World, es: seq<Event>)
    decreases |es|
  {
    es == [] || (Orderly(w, es[0]) && Enabled(w, es[0]) && (!es[0].Begin? ==> w.lock.depth > 0)
                 && OrderlyRun(Step(w, es[0]), es[1..]))
  }

  ghost predicate Tidy(w: World) { w.late == {} && (w.lock.currentZone.None? ==> w.pending == Uses(w.pending)) }

  lemma StepKeepsTidy(w: World, e: Event)
    requires Inv(w) && Tidy(w) && Enabled(w, e) && Orderly(w, e)
    ensures (!e.Begin? ==> w.lock.depth > 0) && Tidy(Step(w, e))
  {}

  /**
   Then the zone is free with nothing pending but kyber uses a revert left: each transaction ends with its
   own zone.
   */
  lemma {:induction false} OrderlyReleasesAreClean(w: World, es: seq<Event>, w': World)
    requires Inv(w) && Tidy(w) && Runs(w, es, w') && OrderlyRun(w, es)
    ensures w'.lock.currentZone.None? ==> forall x <- w'.pending :: x.kyberUse
    decreases |es|
  {
    if es != [] {
      StepKeepsInv(w, es[0]);
      StepKeepsTidy(w, es[0]);
      OrderlyReleasesAreClean(Step(w, es[0]), es[1..], w');
    }
  }

  /**
   In any run, what is pending at a release was left by a revert or written by calls that came in during
   the ending.
   */
  lemma OnlyLateWritesOutlive(w: World, e: Event)
    requires Inv(w) && Enabled(w, e) && !e.Begin? && w.lock.depth == 1
    requires Step(w, e).lock.currentZone != w.lock.currentZone
    ensures forall x <- Step(w, e).pending :: x.job in w.late || (e.Reverted? && x.kyberUse)
  {}

  /** The writes still pending after these events, of which `n` were made before and `p` were pending. */
  function Unsaved(es: seq<Event>, n: nat, p: set<Item>): set<Item> {
    if es == [] then p
    else Unsaved(es[1..], if es[0].Write? then n + 1 else n, PendingAfter(es[0], n, p))
  }

  function PendingAfter(e: Event, n: nat, p: set<Item>): set<Item> {
    match e
    case Write(j, use) => p + {Item(j, n, use)}
    case CommitInside(_) => {}
    case _ => p
  }

  /** A commit inside a body comes at or after this point. */
  ghost predicate SavedFrom(es: seq<Event>, i: nat) { exists k :: i <= k < |es| && es[k].CommitInside? }

  lemma {:induction false} UnsavedIff(es: seq<Event>, n: nat, p: set<Item>)
    ensures
      Unsaved(es, n, p) == {}
      <==> (p == {} || SavedFrom(es, 0)) && forall i :: 0 <= i < |es| && es[i].Write? ==> SavedFrom(es, i)
    decreases |es|
  {
    if es != [] {
      var rest := es[1..];
      forall i: nat
        ensures SavedFrom(rest, i) <==> SavedFrom(es, i + 1)
      {
        if SavedFrom(rest, i) {
          var k :| i <= k < |rest| && rest[k].CommitInside?;
          assert es[k + 1].CommitInside?;
        }
        if SavedFrom(es, i + 1) {
          var k :| i + 1 <= k < |es| && es[k].CommitInside?;
          assert rest[k - 1].CommitInside?;
        }
      }
      assert SavedFrom(es, 0) <==> es[0].CommitInside? || SavedFrom(es, 1);
      UnsavedIff(rest, if es[0].Write? then n + 1 else n, PendingAfter(es[0], n, p));
    }
  }

  lemma StillEnding(w: World, e: Event, j: Job)
    requires Inv(w) && w.ending == Some(j) && Enabled(w, e) && (!e.Begin? ==> w.lock.depth > 0)
    requires e.Begin? || e.Write? || e.job != j
    ensures
      var r := Step(w, e);
      && r.ending == Some(j) && r.count == w.count + (if e.Write? then 1 else 0)
      && r.pending == PendingAfter(e, w.count, w.pending)
  {
    if !e.Begin? && !e.Write? { TwoHolders(w, j, e.job); }
  }

  /** While a call ends at the top level nobody else does, so pending is what the writes made it. */
  lemma {:induction false} PendingWhileEnding(w: World, es: seq<Event>, w': World, j: Job)
    requires Inv(w) && w.ending == Some(j) && Runs(w, es, w') && forall e <- es :: e.Begin? || e.Write? || e.job != j
    ensures Inv(w') && w'.ending == Some(j) && w'.pending == Unsaved(es, w.count, w.pending)
    decreases |es|
  {
    if es != [] {
      StepKeepsInv(w, es[0]);
      StillEnding(w, es[0], j);
      PendingWhileEnding(Step(w, es[0]), es[1..], w', j);
    }
  }

  /**
   A release is clean exactly if every write made since the last body returned or threw was saved by
   a commit inside a body, and so was any kyber use that was pending when it threw.
   */
  lemma CleanReleaseIff(w: World, end: Event, es: seq<Event>, w': World, last: Event)
    requires Inv(w) && Enabled(w, end) && (end.BodyReturns? || end.BodyThrows?) && w.lock.depth == 1
    requires Runs(Step(w, end), es, w') && forall e <- es :: e.Begin? || e.Write? || e.job != end.job
    requires Enabled(w', last) && (last.Committed? || last.Reverted?) && w'.lock.depth == 1
    ensures
      Step(w', last).pending == {}
      <==> (end.BodyThrows? && Uses(w.pending) != {} ==> SavedFrom(es, 0))
           && forall i :: 0 <= i < |es| && es[i].Write? ==> SavedFrom(es, i)
  {
    StepKeepsInv(w, end);
    PendingWhileEnding(Step(w, end), es, w', end.job);
    UnsavedIff(es, w.count, Step(w, end).pending);
  }

  /** A call that comes in while the last one commits, and writes. */
  lemma LateWrite(zone: Zone) returns (es: seq<Event>, w: World)
    ensures Runs(Start(), es, w)
    ensures w == World(Lock(Some(zone), 2, []),
                       map[0 := Call(zone, None, Committing), 1 := Call(zone, None, Running)], [], [],
                       1, {Item(1, 0, false)}, map[0 := {}], {}, Some(0), {1})
  {
    es := [Begin(0, zone, None), BodyReturns(0), Begin(1, zone, None), Write(1, false)];
    var w1 := Step(Start(), es[0]);
    var w2 := Step(w1, es[1]);
    var w3 := Step(w2, es[2]);
    w := Step(w3, es[3]);
    assert Runs(w3, es[3..], w);
    assert Runs(w2, es[2..], w);
    assert Runs(w1, es[1..], w);
  }

  lemma {:induction false} RunsJoin(w: World, es: seq<Event>, w': World, es': seq<Event>, w'': World)
    requires Runs(w, es, w') && Runs(w', es', w'')
    ensures Runs(w, es + es', w'')
    decreases |es|
  {
    if es == [] {
      assert es + es' == es';
    } else {
      RunsJoin(Step(w, es[0]), es[1..], w', es', w'');
      assert (es + es')[1..] == es[1..] + es';
    }
  }

  /** And such a call can: it ends at depth two, so nobody commits what it wrote. */
  lemma DirtyRelease(zone: Zone, next: Zone) returns (es: seq<Event>, w: World)
    requires zone != next
    ensures Runs(Start(), es, w) && w.pending == {Item(1, 0, false)} && InPhase(w, 1, Finished)
    ensures w.lock.currentZone == Some(next)
  {
    var first, w4 := LateWrite(zone);
    var more := [BodyReturns(1), Committed(0), Begin(2, next, None)];
    var w5 := Step(w4, more[0]);
    var w6 := Step(w5, more[1]);
    w := Step(w6, more[2]);
    assert Runs(w6, more[2..], w);
    assert Runs(w5, more[1..], w);
    RunsJoin(Start(), first, w4, more, w);
    es := first + more;
  }

  // ---------------------------------------------------------------- what becomes of the writes

  /** In a zone that holds all writes back nothing reaches the database before a top-level commit does. */
  lemma {:induction false} NothingEarly(w: World, es: seq<Event>, w': World, zone: Zone)
    requires Inv(w) && Runs(w, es, w') && w.lock.currentZone == Some(zone)
    requires zone.pendingKyberPreKeysToRemove && zone.pendingPreKeysToRemove && zone.pendingSenderKeys
    requires zone.pendingSessions && zone.pendingUnprocessed
    requires forall e <- es :: !e.Committed? && !e.Reverted?
    ensures w'.durable == w.durable && w'.lock.currentZone == Some(zone)
    decreases |es|
  {
    if es != [] {
      StepKeepsInv(w, es[0]);
      NothingEarly(Step(w, es[0]), es[1..], w', zone);
    }
  }

  /** In any other zone it can: a commit inside the body brings a write to the database while the body still runs. */
  lemma EarlyWrite(zone: Zone) returns (es: seq<Event>, w: World)
    requires !(zone.pendingKyberPreKeysToRemove && zone.pendingPreKeysToRemove && zone.pendingSenderKeys
               && zone.pendingSessions && zone.pendingUnprocessed)
    ensures Runs(Start(), es, w) && InPhase(w, 0, Running) && w.durable == {Item(0, 0, false)} && w.pending == {}
  {
    var first, w3 := EarlyCommit(zone);
    w := Step(w3, InnerDone(0));
    assert Runs(w3, [InnerDone(0)], w);
    RunsJoin(Start(), first, w3, [InnerDone(0)], w);
    es := first + [InnerDone(0)];
  }

  /** Or the commit fails, and the body goes on without the write. */
  lemma EarlyLoss(zone: Zone) returns (es: seq<Event>, w: World)
    requires !HoldsAllBack(zone)
    ensures Runs(Start(), es, w) && InPhase(w, 0, Running) && Lost(w, Item(0, 0, false))
  {
    var first, w3 := EarlyCommit(zone);
    w := Step(w3, InnerFails(0));
    assert Runs(w3, [InnerFails(0)], w);
    RunsJoin(Start(), first, w3, [InnerFails(0)], w);
    es := first + [InnerFails(0)];
  }

  lemma EarlyCommit(zone: Zone) returns (es: seq<Event>, w: World)
    requires !HoldsAllBack(zone)
    ensures Runs(Start(), es, w)
    ensures w == World(Lock(Some(zone), 1, []), map[0 := Call(zone, None, Storing)], [], [],
                       1, {}, map[0 := {Item(0, 0, false)}], {}, None, {})
  {
    es := [Begin(0, zone, None), Write(0, false), CommitInside(0)];
    var w1 := Step(Start(), es[0]);
    var w2 := Step(w1, es[1]);
    w := Step(w2, es[2]);
    assert w2.pending == {Item(0, 0, false)} && w1.calls == map[0 := Call(zone, None, Running)];
    assert w.calls == map[0 := Call(zone, None, Storing)] && w.taken == map[0 := {Item(0, 0, false)}];
    assert Runs(w2, es[2..], w);
    assert Runs(w1, es[1..], w);
  }

  /** A top-level commit can throw; then the write is nowhere and only the stuck call holds the zone. */
  lemma CommitThrows(zone: Zone) returns (es: seq<Event>, w: World)
    ensures Runs(Start(), es, w)
    ensures w.lock == Lock(Some(zone), 1, []) && InPhase(w, 0, Stuck) && Lost(w, Item(0, 0, false))
  {
    es := [Begin(0, zone, None), Write(0, false), BodyReturns(0), CommitFails(0)];
    var w1 := Step(Start(), es[0]);
    var w2 := Step(w1, es[1]);
    var w3 := Step(w2, es[2]);
    w := Step(w3, es[3]);
    assert w2.lock == Lock(Some(zone), 1, []) && w3.lock == w2.lock;
    assert w.taken == map[];
    assert Runs(w3, es[3..], w);
    assert Runs(w2, es[2..], w);
    assert Runs(w1, es[1..], w);
  }

  /** A body can throw; then its use of a kyber prekey is still pending once the zone is free. */
  lemma UseOutlivesRevert(zone: Zone) returns (es: seq<Event>, w: World)
    ensures Runs(Start(), es, w) && w.lock == Lock(None, 0, []) && w.pending == {Item(0, 0, true)}
  {
    es := [Begin(0, zone, None), Write(0, true), BodyThrows(0), Reverted(0)];
    var w1 := Step(Start(), es[0]);
    var w2 := Step(w1, es[1]);
    var w3 := Step(w2, es[2]);
    w := Step(w3, es[3]);
    assert Runs(w3, es[3..], w);
    assert Runs(w2, es[2..], w);
    assert Runs(w1, es[1..], w);
  }

  /**
   What is taken waits with its commit, at the top level or inside a body, and is in the database once
   that is done.
   */
  lemma {:induction false} CommittedWritesAreDurable(w: World, es: seq<Event>, w': World, j: Job, written: set<Item>)
    requires Inv(w) && Runs(w, es, w') && j in w.calls && InPhase(w', j, Finished)
    requires (w.calls[j].phase == Committing && written <= TakenBy(w, j))
      || (w.calls[j].phase == Finished && written <= w.durable)
    ensures written <= w'.durable
    decreases |es|
  {
    if es != [] {
      StepKeepsInv(w, es[0]);
      StaysTaken(w, es[0], j, written);
      if InPhase(Step(w, es[0]), j, Stuck) {
        StuckForever(Step(w, es[0]), es[1..], w', j);
      } else {
        CommittedWritesAreDurable(Step(w, es[0]), es[1..], w', j, written);
      }
    }
  }

  lemma FinishedStays(w: World, e: Event, j: Job)
    requires Inv(w) && Enabled(w, e) && (!e.Begin? ==> w.lock.depth > 0) && InPhase(w, j, Finished)
    ensures InPhase(Step(w, e), j, Finished) && w.durable <= Step(w, e).durable
  {
    BatchIsMaximal(w.lock.queue);
    assert j !in Jobs(Batch(w.lock.queue));
  }

  lemma StaysTaken(w: World, e: Event, j: Job, written: set<Item>)
    requires Inv(w) && Enabled(w, e) && (!e.Begin? ==> w.lock.depth > 0) && j in w.calls
    requires (w.calls[j].phase == Committing && written <= TakenBy(w, j))
      || (w.calls[j].phase == Finished && written <= w.durable)
    ensures
      var r := Step(w, e);
      && j in r.calls
      && ((r.calls[j].phase == Committing && written <= TakenBy(r, j))
         || (r.calls[j].phase == Finished && written <= r.durable)
          || r.calls[j].phase == Stuck)
  {
    if w.calls[j].phase == Finished {
      FinishedStays(w, e, j);
    } else if e.Begin? || e.Write? || e.job != j {
      HolderCounts(w, j);
      HeldStays(w, e, j);
      TakenStays(w, e, j);
    } else {
      BatchIsMaximal(w.lock.queue);
      assert j !in Jobs(Batch(w.lock.queue));
    }
  }

  /** What was pending when the last body of a zone returned is in the database once its call is finished. */
  lemma ReturnedWritesAreDurable(w: World, j: Job, es: seq<Event>, w': World)
    requires Inv(w) && Enabled(w, BodyReturns(j)) && w.lock.depth == 1
    requires Runs(Step(w, BodyReturns(j)), es, w') && InPhase(w', j, Finished)
    ensures w.pending <= w'.durable
  {
    StepKeepsInv(w, BodyReturns(j));
    CommittedWritesAreDurable(Step(w, BodyReturns(j)), es, w', j, w.pending);
  }

  /** What a commit took is not touched by the steps of others, unless the zone ends. */
  lemma TakenStays(w: World, e: Event, j: Job)
    requires Enabled(w, e) && (!e.Begin? ==> w.lock.depth > 0) && (e.Begin? || e.Write? || e.job != j)
    ensures TakenBy(Step(w, e), j) == TakenBy(w, j)
  {}

  lemma StillSaving(w: World, e: Event, j: Job, p: Phase)
    requires Inv(w) && Enabled(w, e) && InPhase(w, j, p) && Saving(p) && w.lock.depth > 0
    requires e.Begin? || e.Write? || e.job != j
    ensures InPhase(Step(w, e), j, p) && TakenBy(Step(w, e), j) == TakenBy(w, j)
  {
    HeldStays(w, e, j);
    TakenStays(w, e, j);
  }

  /** As long as its own next step has not come, a commit keeps what it took. */
  lemma {:induction false} SavingKeeps(w: World, es: seq<Event>, w': World, j: Job, p: Phase)
    requires Inv(w) && InPhase(w, j, p) && Saving(p) && Runs(w, es, w')
    requires forall e <- es :: e.Begin? || e.Write? || e.job != j
    ensures Inv(w') && InPhase(w', j, p) && TakenBy(w', j) == TakenBy(w, j)
    decreases |es|
  {
    if es != [] {
      HolderCounts(w, j);
      StillSaving(w, es[0], j, p);
      StepKeepsInv(w, es[0]);
      SavingKeeps(Step(w, es[0]), es[1..], w', j, p);
    }
  }

  /** A write that is neither pending nor taken nor in the database is lost. */
  predicate Lost(w: World, x: Item) {
    x.number < w.count && x !in w.pending && x !in w.durable && forall j :: j in w.taken ==> x !in w.taken[j]
  }

  lemma LostStays(w: World, e: Event, x: Item)
    requires Inv(w) && Enabled(w, e) && (!e.Begin? ==> w.lock.depth > 0) && Lost(w, x)
    ensures Lost(Step(w, e), x)
  {}

  lemma {:induction false} LostForever(w: World, es: seq<Event>, w': World, x: Item)
    requires Inv(w) && Runs(w, es, w') && Lost(w, x)
    ensures x !in w'.durable
    decreases |es|
  {
    if es != [] {
      StepKeepsInv(w, es[0]);
      LostStays(w, es[0], x);
      LostForever(Step(w, es[0]), es[1..], w', x);
    }
  }

  lemma FailureLoses(w: World, j: Job, e: Event, x: Item)
    requires Inv(w) && (e == InnerFails(j) || e == CommitFails(j)) && Enabled(w, e) && x in TakenBy(w, j)
    ensures Lost(Step(w, e), x)
  {}

  lemma FailureLosesAll(w: World, j: Job, e: Event, es: seq<Event>, w': World)
    requires Inv(w) && (e == InnerFails(j) || e == CommitFails(j)) && Enabled(w, e) && Runs(Step(w, e), es, w')
    ensures TakenBy(w, j) !! w'.durable
  {
    StepKeepsInv(w, e);
    forall x | x in TakenBy(w, j)
      ensures x !in w'.durable
    {
      FailureLoses(w, j, e, x);
      LostForever(Step(w, e), es, w', x);
    }
  }

  lemma {:induction false} DurableGrows(w: World, es: seq<Event>, w': World)
    requires Inv(w) && Runs(w, es, w')
    ensures w.durable <= w'.durable
    decreases |es|
  {
    if es != [] {
      StepKeepsInv(w, es[0]);
      DurableGrows(Step(w, es[0]), es[1..], w');
    }
  }

  /**
   A commit inside a body brings everything pending by then to the database, whoever wrote it, or all of
   it is lost.
   */
  lemma InnerCommitIsAtomic(w: World, j: Job, es: seq<Event>, w': World, e: Event, es2: seq<Event>, w'': World)
    requires Inv(w) && Enabled(w, CommitInside(j)) && Runs(Step(w, CommitInside(j)), es, w')
    requires (forall e <- es :: e.Begin? || e.Write? || e.job != j) && (e == InnerDone(j) || e == InnerFails(j))
    requires w'.lock.depth > 0 && Enabled(w', e) && Runs(Step(w', e), es2, w'')
    ensures if e.InnerDone? then w.pending <= w''.durable else w.pending !! w''.durable
  {
    StepKeepsInv(w, CommitInside(j));
    SavingKeeps(Step(w, CommitInside(j)), es, w', j, Storing);
    StepKeepsInv(w', e);
    if e.InnerDone? {
      DurableGrows(Step(w', e), es2, w'');
    } else {
      FailureLosesAll(w', j, e, es2, w'');
    }
  }

  /**
   When a top-level commit throws its call never leaves the zone: from then on the zone stays taken, nobody is
   let in, and what the commit took never reaches the database.
   */
  lemma FailedCommitSticks(w: World, j: Job, es: seq<Event>, w': World)
    requires Inv(w) && Enabled(w, CommitFails(j)) && Runs(Step(w, CommitFails(j)), es, w')
    ensures InPhase(w', j, Stuck) && w'.lock.currentZone == w.lock.currentZone == Some(w.calls[j].zone)
    ensures w'.letIn == w.letIn && forall k :: InPhase(w, k, Waiting) ==> InPhase(w', k, Waiting)
    ensures TakenBy(w, j) !! w'.durable
  {
    StepKeepsInv(w, CommitFails(j));
    StuckForever(Step(w, CommitFails(j)), es, w', j);
    FailureLosesAll(w, j, CommitFails(j), es, w');
  }

  /**
   All that is pending when the last body of a zone returns reaches the database with its commit, or none of it
   ever does.
   */
  lemma TopCommitIsAtomic(w: World, j: Job, es: seq<Event>, w': World, e: Event, es2: seq<Event>, w'': World)
    requires Inv(w) && Enabled(w, BodyReturns(j)) && w.lock.depth == 1 && Runs(Step(w, BodyReturns(j)), es, w')
    requires (forall e <- es :: e.Begin? || e.Write? || e.job != j) && (e == Committed(j) || e == CommitFails(j))
    requires w'.lock.depth > 0 && Enabled(w', e) && Runs(Step(w', e), es2, w'')
    ensures if e.Committed? then w.pending <= w''.durable else w.pending !! w''.durable && InPhase(w'', j, Stuck)
  {
    StepKeepsInv(w, BodyReturns(j));
    SavingKeeps(Step(w, BodyReturns(j)), es, w', j, Committing);
    StepKeepsInv(w', e);
    if e.Committed? {
      DurableGrows(Step(w', e), es2, w'');
    } else {
      FailedCommitSticks(w', j, es2, w'');
    }
  }

  /** When the last body of a zone throws, what was pending never gets to the database, except uses of kyber prekeys. */
  lemma ThrownWritesAreGone(w: World, j: Job, es: seq<Event>, w': World, x: Item)
    requires Inv(w) && Enabled(w, BodyThrows(j)) && w.lock.depth == 1
    requires Runs(Step(w, BodyThrows(j)), es, w') && x in w.pending && !x.kyberUse
    ensures x !in w'.durable
  {
    StepKeepsInv(w, BodyThrows(j));
    LostForever(Step(w, BodyThrows(j)), es, w', x);
  }
}
