/**
 The zone lock of ts/SignalProtocolStore.preload.ts: a re-entrant lock that any number of calls
 may hold together as long as they name the same zone, with a queue of those that must wait.
 */
module ZoneLock {
  import opened Wrappers

  /** Zones are compared by identity; the flags say which writes a zone may hold back. */
  datatype Zone = Zone(
    id: nat,
    pendingKyberPreKeysToRemove: bool,
    pendingPreKeysToRemove: bool,
    pendingSenderKeys: bool,
    pendingSessions: bool,
    pendingUnprocessed: bool)

  /** One call of `withZone`. */
  type Job = nat

  datatype Waiter = Waiter(zone: Zone, job: Job)

  datatype Lock = Lock(currentZone: Option<Zone>, depth: nat, queue: seq<Waiter>)

  /** The guard at the top of `withZone`: same-zone calls go in even past a queue. */
  predicate MustWait(l: Lock, zone: Zone) { l.currentZone.Some? && l.currentZone != Some(zone) }

  /** `#enterZone`. */
  function Enter(l: Lock, zone: Zone): Lock {
    Lock(if l.depth == 0 then Some(zone) else l.currentZone, l.depth + 1, l.queue)
  }

  function SameZone(queue: seq<Waiter>, zone: Zone): (r: nat)
    ensures r <= |queue|
  {
    if queue == [] || queue[0].zone != zone then 0 else 1 + SameZone(queue[1..], zone)
  }

  /** The waiters `#leaveZone` takes out of the queue at once. */
  function Batch(queue: seq<Waiter>): seq<Waiter> {
    if queue == [] then [] else queue[..SameZone(queue, queue[0].zone)]
  }

  /** `#leaveZone`, with the calls it lets in. */
  function Leave(l: Lock): (Lock, seq<Waiter>)
    requires l.depth > 0
  {
    if l.depth > 1 then (l.(depth := l.depth - 1), [])
    else
      var batch := Batch(l.queue);
      if batch == [] then (Lock(None, 0, l.queue), [])
      else (Lock(Some(batch[0].zone), |batch|, l.queue[|batch|..]), batch)
  }

  /** The batch is the longest part of the queue that asks for the same zone. */
  lemma {:induction false} SameZoneIsMaximal(queue: seq<Waiter>, zone: Zone)
    ensures var n := SameZone(queue, zone);
      && (forall i :: 0 <= i < n ==> queue[i].zone == zone)
      && (n < |queue| ==> queue[n].zone != zone)
  {
    if queue != [] && queue[0].zone == zone {
      SameZoneIsMaximal(queue[1..], zone);
    }
  }

  lemma BatchIsMaximal(queue: seq<Waiter>)
    ensures var b := Batch(queue);
      && b <= queue && (queue != [] ==> b != [])
      && (forall i, j :: 0 <= i < |b| && 0 <= j < |b| ==> b[i].zone == b[j].zone)
      && (|b| < |queue| ==> queue[|b|].zone != b[0].zone)
  {
    if queue != [] { SameZoneIsMaximal(queue, queue[0].zone); }
  }

  /** What holds between steps: no waiter heads the queue of its own zone. */
  ghost predicate Sane(l: Lock) {
    && (l.depth == 0 <==> l.currentZone.None?)
    && (l.queue != [] ==> l.currentZone.Some? && l.currentZone != Some(l.queue[0].zone))
  }

  lemma LeaveKeepsSane(l: Lock)
    requires Sane(l) && l.depth > 0
    ensures Sane(Leave(l).0)
    ensures Leave(l).1 + Leave(l).0.queue == l.queue
    ensures l.queue != [] && l.depth == 1 ==> |Leave(l).0.queue| < |l.queue|
  {
    BatchIsMaximal(l.queue);
  }

  /** The lock as the store keeps it. */
  class ZoneGate {
    var currentZone: Option<Zone>
    var currentZoneDepth: int
    var zoneQueue: seq<Waiter>

    ghost predicate Valid()
      reads this
    {
      currentZoneDepth >= 0 && Sane(Snapshot())
    }

    ghost function Snapshot(): Lock
      reads this
      requires currentZoneDepth >= 0
    {
      Lock(currentZone, currentZoneDepth, zoneQueue)
    }

    constructor ()
      ensures Valid() && Snapshot() == Lock(None, 0, [])
    {
      currentZone, currentZoneDepth, zoneQueue := None, 0, [];
    }

    method EnterZone(zone: Zone)
      requires currentZoneDepth >= 0 && (currentZoneDepth == 0 ==> currentZone.None?)
      modifies this`currentZone, this`currentZoneDepth
      ensures currentZoneDepth >= 0 && Snapshot() == Enter(old(Snapshot()), zone)
    {
      currentZoneDepth := currentZoneDepth + 1;
      if currentZoneDepth == 1 {
        assert currentZone.None?;
        currentZone := Some(zone);
      }
    }

    /** The first part of `withZone`, up to the call of the body. */
    method BeginWithZone(zone: Zone, job: Job) returns (entered: bool)
      requires Valid()
      modifies this
      ensures Valid() && entered == !MustWait(old(Snapshot()), zone)
      ensures
        Snapshot() == if entered then Enter(old(Snapshot()), zone)
                      else old(Snapshot()).(queue := old(zoneQueue) + [Waiter(zone, job)])
    {
      if currentZone.Some? && currentZone != Some(zone) {
        zoneQueue := zoneQueue + [Waiter(zone, job)];
        return false;
      }
      EnterZone(zone);
      return true;
    }

    /** The part of `#leaveZone` that takes the next waiters out of the queue. */
    method TakeBatch() returns (toEnter: seq<Waiter>)
      requires zoneQueue != []
      modifies this`zoneQueue
      ensures toEnter == Batch(old(zoneQueue)) && toEnter + zoneQueue == old(zoneQueue)
    {
      ghost var queue := zoneQueue;
      var next := zoneQueue[0];
      zoneQueue := zoneQueue[1..];
      toEnter := [next];
      while zoneQueue != [] && zoneQueue[0].zone == next.zone
        invariant toEnter + zoneQueue == queue
        invariant |toEnter| + SameZone(zoneQueue, next.zone) == SameZone(queue, next.zone)
        decreases |zoneQueue|
      {
        toEnter := toEnter + [zoneQueue[0]];
        zoneQueue := zoneQueue[1..];
      }
    }

    /** The callbacks of one batch, each of them entering the zone. */
    method EnterAll(batch: seq<Waiter>)
      requires currentZone.None? && currentZoneDepth == 0
      requires batch != [] && forall w <- batch :: w.zone == batch[0].zone
      modifies this`currentZone, this`currentZoneDepth
      ensures currentZone == Some(batch[0].zone) && currentZoneDepth == |batch|
    {
      for i := 0 to |batch|
        invariant currentZoneDepth == i && currentZone == if i == 0 then None else Some(batch[0].zone)
      {
        assert !MustWait(Snapshot(), batch[i].zone);
        EnterZone(batch[i].zone);
      }
    }

    /** Both assertions of the source hold; the calls let in are `entered`, in queue order. */
    method LeaveZone(zone: Zone) returns (entered: seq<Waiter>)
      requires Valid() && currentZone == Some(zone)
      modifies this
      ensures Valid() && (Snapshot(), entered) == Leave(old(Snapshot()))
    {
      ghost var queue := zoneQueue;
      LeaveKeepsSane(Snapshot());
      BatchIsMaximal(queue);
      currentZoneDepth := currentZoneDepth - 1;
      assert currentZoneDepth >= 0;
      entered := [];
      if currentZoneDepth != 0 { return; }
      currentZone := None;
      if zoneQueue == [] { return; }
      entered := TakeBatch();
      EnterAll(entered);
      assert zoneQueue == queue[|entered|..];
    }
  }
}
