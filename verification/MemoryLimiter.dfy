/**
 The in-memory limiter (concurrency-limiter.ts) as a state machine: what each event
 does to the slots, the queue and the expiry timer, and what holds after every event.
 The class that performs the events in place is in module MemoryLimiterClass.

 `now` is the clock reading of the event and `expiry` is `now + leaseTtlMs`.
 */
module MemoryLimiter {
  import opened Prelude
  import opened Policy
  import opened PolicyTheorems
  import opened Allocator
  import opened LimiterSettings

  datatype Refusal = BadWorkload | Aborted | QueueFull | TimedOut

  /** How the promise of one `acquire` call was settled. */
  datatype Outcome = Leased(slot: Id, workload: string, ttlMs: int) | Refused(why: Refusal)

  datatype Mem = Mem(
    slots: map<Id, Slot>,
    waiters: map<Id, Ticket>,
    deadlines: map<Id, int>,      // wait-limit timers, by waiter
    outcomes: map<Id, Outcome>,   // settled promises
    nextId: Id,
    lastTicket: int,
    timer: Option<int>,           // when the expiry timer fires
    lags: seq<nat>)               // by slot: how long after its pass `toLease` reads the clock

  function Max(a: int, b: int): int {
    if a >= b then a else b
  }

  // ----- the operations, as functions of the state -----

  function Live(slots: map<Id, Slot>, now: int): map<Id, Slot> {
    slots - set id | id in slots && slots[id].expiresAt <= now
  }

  ghost predicate IsEarliest(slots: map<Id, Slot>, t: int) {
    && (exists id :: id in slots && slots[id].expiresAt == t)
    && (forall id :: id in slots ==> t <= slots[id].expiresAt)
  }

  lemma {:induction false} EarliestExists(slots: map<Id, Slot>)
    requires slots != map[]
    ensures exists t :: IsEarliest(slots, t)
    decreases |slots|
  {
    var id :| id in slots;
    var others := slots - {id};
    if others == map[] {
      assert forall i :: i in slots ==> i == id || i in others;
      assert IsEarliest(slots, slots[id].expiresAt);
    } else {
      EarliestExists(others);
      var t :| IsEarliest(others, t);
      assert forall i :: i in slots ==> i == id || (i in others && others[i] == slots[i]);
      assert IsEarliest(slots, if t <= slots[id].expiresAt then t else slots[id].expiresAt);
    }
  }

  ghost function Earliest(slots: map<Id, Slot>): (t: int)
    requires slots != map[]
    ensures IsEarliest(slots, t)
  {
    EarliestExists(slots);
    var t :| IsEarliest(slots, t);
    t
  }

  /** `armExpiryTimer`. */
  ghost function Armed(m: Mem, now: int): Mem {
    m.(timer := if m.waiters == map[] || m.slots == map[] then None else Some(Max(now, Earliest(m.slots))))
  }

  /** `toLease`. */
  function LeaseTtl(slot: Slot, now: int): int {
    Max(1, slot.expiresAt - now)
  }

  function Settled(m: Mem, id: Id, outcome: Outcome): Mem {
    m.(waiters := m.waiters - {id}, deadlines := m.deadlines - {id}, outcomes := m.outcomes[id := outcome])
  }

  /** The clock when the lease of a new slot is made out, `now` being that of the pass. */
  function ReadAt(lags: seq<nat>, slot: Id, now: int): int {
    if slot < |lags| then now + lags[slot] else now
  }

  function GrantOne(m: Mem, x: Waiter, now: int, expiry: int): Mem {
    var slot := Slot(x.workload, expiry);
    Settled(m, x.id, Leased(m.nextId, x.workload, LeaseTtl(slot, ReadAt(m.lags, m.nextId, now))))
    .(slots := m.slots[m.nextId := slot], nextId := m.nextId + 1)
  }

  ghost function GrantEach(m: Mem, grants: seq<Waiter>, now: int, expiry: int): Mem
    decreases grants
  {
    if grants == [] then m else GrantEach(GrantOne(m, grants[0], now, expiry), grants[1..], now, expiry)
  }

  function Purged(m: Mem, now: int): Mem {
    m.(slots := Live(m.slots, now))
  }

  /** What `schedule` leaves behind, before the timer is armed again. */
  ghost function Granted(limits: Limits, m: Mem, now: int, expiry: int): Mem
    requires TicketsBelow(m)
  {
    var p := Purged(m, now);
    GrantEach(p, Grants(limits, ActiveOf(limits, p.slots), Queue(p.waiters)), now, expiry)
  }

  ghost function Schedule(limits: Limits, m: Mem, now: int, expiry: int): Mem
    requires TicketsBelow(m)
  {
    Armed(Granted(limits, m, now, expiry), now)
  }

  function Enqueued(m: Mem, workload: string): Mem {
    m.(waiters := m.waiters[m.nextId := Ticket(workload, m.lastTicket + 1)],
       nextId := m.nextId + 1,
       lastTicket := m.lastTicket + 1)
  }

  function Refuse(m: Mem, why: Refusal): Mem {
    m.(outcomes := m.outcomes[m.nextId := Refused(why)], nextId := m.nextId + 1)
  }

  /** After the pass of an `acquire`: reject if the queue is full, else start the wait limit. */
  ghost function QueueOrRefuse(limits: Limits, n: Mem, id: Id, waitMs: Option<int>, now: int): Mem {
    if id !in n.waiters then n
    else if limits.maxQueued.Some? && |n.waiters| > limits.maxQueued.value then
      Armed(Settled(n, id, Refused(QueueFull)), now)
    else if waitMs.Some? then n.(deadlines := n.deadlines[id := now + Max(0, waitMs.value)]) else n
  }

  ghost function AfterAcquire(limits: Limits, m: Mem, workload: Option<string>, aborted: bool,
                              timeoutMs: Option<int>, now: int, expiry: int): Mem
    requires TicketsBelow(m)
  {
    var target := ResolveWorkload(limits, workload);
    if target.Err? then Refuse(m, BadWorkload)
    else if aborted then Refuse(m, Aborted)
    else
      Admitted(limits, m, target.value.0, MinDefined(timeoutMs, target.value.1.maxWaitMs), now, expiry)
  }

  /** The rest of `acquire` for a known workload. */
  ghost function Admitted(limits: Limits, m: Mem, workload: string, waitMs: Option<int>, now: int, expiry: int): Mem
    requires TicketsBelow(m)
  {
    QueueOrRefuse(limits, Schedule(limits, Enqueued(m, workload), now, expiry), m.nextId, waitMs, now)
  }

  /** Ending up queued or refused concerns the one request only. */
  lemma QueueOrRefuseKeepsOthers(limits: Limits, n: Mem, id: Id, waitMs: Option<int>, now: int)
    ensures var r := QueueOrRefuse(limits, n, id, waitMs, now);
            && r.slots == n.slots && r.nextId == n.nextId
            && (id in n.waiters ==> id in r.waiters || id in r.outcomes)
            && (id in n.outcomes ==> id in r.outcomes)
            && (id in r.waiters ==> id in n.waiters && r.waiters[id] == n.waiters[id])
  {
  }

  /** An abort or an expired wait limit takes the waiter out of the queue, if it is still there. */
  ghost function AfterGivingUp(m: Mem, id: Id, why: Refusal, now: int): Mem {
    if id in m.waiters then Armed(Settled(m, id, Refused(why)), now) else m
  }

  function Extended(m: Mem, slot: Id, expiry: int): Mem
    requires slot in m.slots
  {
    m.(slots := m.slots[slot := Slot(m.slots[slot].workload, expiry)])
  }

  ghost function AfterRenew(limits: Limits, m: Mem, slot: Id, now: int, expiry: int): Mem
    requires TicketsBelow(m)
  {
    if slot !in m.slots || m.slots[slot].expiresAt <= now then Schedule(limits, m, now, expiry)
    else Armed(Extended(m, slot, expiry), now)
  }

  ghost function AfterRelease(limits: Limits, m: Mem, slot: Id, now: int, expiry: int): Mem
    requires TicketsBelow(m)
  {
    Schedule(limits, m.(slots := m.slots - {slot}), now, expiry)
  }

  ghost function AfterTimer(limits: Limits, m: Mem, now: int, expiry: int): Mem
    requires TicketsBelow(m)
  {
    Schedule(limits, m.(timer := None), now, expiry)
  }

  // ----- the invariant -----

  function Abs(m: Mem): State {
    State(m.waiters, m.slots)
  }

  /** Tickets are distinct, and new ones are larger than all before. */
  ghost predicate TicketsBelow(m: Mem)
    ensures TicketsBelow(m) ==> DistinctTickets(Queue(m.waiters))
  {
    && (forall i, j :: i in m.waiters && j in m.waiters && m.waiters[i].number == m.waiters[j].number ==> i == j)
    && (forall id :: id in m.waiters ==> m.waiters[id].number <= m.lastTicket && id < m.nextId)
  }

  /** What holds between the events and also in the middle of one. */
  ghost predicate Core(limits: Limits, m: Mem) {
    && Allocator.Inv(limits, Abs(m))
    && TicketsBelow(m)
    && (forall id :: id in m.slots ==> id < m.nextId)
  }

  /** While requests wait and slots are held, the timer fires by the time any slot has expired. */
  ghost predicate TimerArmed(m: Mem, clock: int) {
    m.waiters != map[] && m.slots != map[] ==>
      m.timer.Some? && forall id :: id in m.slots ==> m.timer.value <= Max(clock, m.slots[id].expiresAt)
  }

  ghost predicate Inv(limits: Limits, m: Mem, clock: int) {
    && Core(limits, m)
    && NobodyWaitsInVain(limits, Abs(m))
    && TimerArmed(m, clock)
  }

  // ----- one scheduling pass -----

  function Leases(first: Id, count: nat): (r: seq<Id>)
    ensures |r| == count && forall i :: 0 <= i < count ==> r[i] == first + i
  {
    seq(count, i requires 0 <= i < count => first + i)
  }

  lemma LeasesTail(first: Id, count: nat)
    requires count > 0
    ensures Leases(first, count)[0] == first && Leases(first, count)[1..] == Leases(first + 1, count - 1)
  {
  }

  lemma {:induction false} GrantEachIsAddGrants(m: Mem, grants: seq<Waiter>, now: int, expiry: int)
    ensures var n := GrantEach(m, grants, now, expiry);
            && n.slots == AddGrants(m.slots, grants, Leases(m.nextId, |grants|), expiry)
            && n.waiters == m.waiters - Elems(Ids(grants))
            && n.nextId == m.nextId + |grants| && n.lastTicket == m.lastTicket
    decreases grants
  {
    if grants == [] {
      assert Elems(Ids(grants)) == {};
    } else {
      GrantEachIsAddGrants(GrantOne(m, grants[0], now, expiry), grants[1..], now, expiry);
      LeasesTail(m.nextId, |grants|);
      assert Ids(grants) == [grants[0].id] + Ids(grants[1..]);
      assert Elems(Ids(grants)) == {grants[0].id} + Elems(Ids(grants[1..]));
    }
  }

  lemma {:induction false} GrantEachExpiry(m: Mem, grants: seq<Waiter>, now: int, expiry: int)
    requires forall id :: id in m.slots ==> id < m.nextId
    ensures var n := GrantEach(m, grants, now, expiry);
            && (forall id :: id in m.slots ==> id in n.slots && n.slots[id] == m.slots[id])
            && (forall id :: id in n.slots ==> id < n.nextId)
            && (forall id :: id in n.slots && id !in m.slots ==> n.slots[id].expiresAt == expiry)
    decreases grants
  {
    if grants != [] {
      GrantEachExpiry(GrantOne(m, grants[0], now, expiry), grants[1..], now, expiry);
    }
  }

  lemma PurgeIsExpire(limits: Limits, m: Mem, now: int)
    requires Core(limits, m)
    ensures Core(limits, Purged(m, now)) && Reaches(limits, Abs(m), Abs(Purged(m, now)))
  {
    var expired := set id | id in m.slots && m.slots[id].expiresAt <= now;
    assert Live(m.slots, now) == m.slots - expired;
    ReachesStep(limits, Abs(m), Expire(expired, now), Abs(Purged(m, now)));
  }

  lemma PassIsAllocate(limits: Limits, p: Mem, now: int, expiry: int)
    requires Core(limits, p)
    ensures var n := GrantEach(p, PassGrants(limits, Abs(p)), now, expiry);
            && Allocator.Inv(limits, Abs(n))
            && Reaches(limits, Abs(p), Abs(n))
            && NobodyWaitsInVain(limits, Abs(n))
  {
    var grants := PassGrants(limits, Abs(p));
    GrantEachIsAddGrants(p, grants, now, expiry);
    AllocateLeavesNobody(limits, Abs(p), Leases(p.nextId, |grants|), expiry, Abs(GrantEach(p, grants, now, expiry)));
  }

  lemma PassKeepsOrder(limits: Limits, p: Mem, grants: seq<Waiter>, now: int, expiry: int)
    requires TicketsBelow(p) && forall id :: id in p.slots ==> id < p.nextId
    ensures TicketsBelow(GrantEach(p, grants, now, expiry))
    ensures forall id :: id in GrantEach(p, grants, now, expiry).slots ==> id < GrantEach(p, grants, now, expiry).nextId
  {
    GrantEachIsAddGrants(p, grants, now, expiry);
    GrantEachExpiry(p, grants, now, expiry);
  }

  lemma GrantedIsSound(limits: Limits, m: Mem, now: int, expiry: int)
    requires Core(limits, m)
    ensures Core(limits, Granted(limits, m, now, expiry))
    ensures NobodyWaitsInVain(limits, Abs(Granted(limits, m, now, expiry)))
    ensures Reaches(limits, Abs(m), Abs(Granted(limits, m, now, expiry)))
  {
    var p := Purged(m, now);
    PurgeIsExpire(limits, m, now);
    PassIsAllocate(limits, p, now, expiry);
    PassKeepsOrder(limits, p, PassGrants(limits, Abs(p)), now, expiry);
    ReachesTransitive(limits, Abs(m), Abs(p), Abs(Granted(limits, m, now, expiry)));
  }

  lemma ArmedKeeps(limits: Limits, m: Mem, now: int)
    requires Core(limits, m) && NobodyWaitsInVain(limits, Abs(m))
    ensures Abs(Armed(m, now)) == Abs(m) && Inv(limits, Armed(m, now), now)
  {
  }

  /** `schedule` from any sound state: the invariant is re-established and only abstract steps were taken. */
  lemma ScheduleEstablishesInv(limits: Limits, m: Mem, now: int, expiry: int)
    requires Core(limits, m)
    ensures Inv(limits, Schedule(limits, m, now, expiry), now)
    ensures Reaches(limits, Abs(m), Abs(Schedule(limits, m, now, expiry)))
  {
    GrantedIsSound(limits, m, now, expiry);
    ArmedKeeps(limits, Granted(limits, m, now, expiry), now);
  }

  // ----- every event keeps the invariant and refines the abstract allocator -----

  lemma EnqueueKeepsCore(limits: Limits, m: Mem, w: string)
    requires Core(limits, m) && w in limits.workloads
    ensures Core(limits, Enqueued(m, w)) && Reaches(limits, Abs(m), Abs(Enqueued(m, w)))
  {
    ReachesStep(limits, Abs(m), Enqueue(m.nextId, w, m.lastTicket + 1), Abs(Enqueued(m, w)));
  }

  lemma SettledIsCancel(limits: Limits, m: Mem, id: Id, why: Refusal)
    requires Core(limits, m) && NobodyWaitsInVain(limits, Abs(m)) && id in m.waiters
    ensures var n := Settled(m, id, Refused(why));
            Core(limits, n) && NobodyWaitsInVain(limits, Abs(n)) && Reaches(limits, Abs(m), Abs(n))
  {
    ReachesStep(limits, Abs(m), Cancel({id}), Abs(Settled(m, id, Refused(why))));
  }

  /** Removing one waiter needs no new pass: nobody else gets closer to a slot. */
  lemma GivingUpKeepsInv(limits: Limits, m: Mem, clock: int, id: Id, why: Refusal, now: int)
    requires clock <= now && Inv(limits, m, clock)
    ensures Inv(limits, AfterGivingUp(m, id, why, now), now)
    ensures Reaches(limits, Abs(m), Abs(AfterGivingUp(m, id, why, now)))
  {
    ReachesSelf(limits, Abs(m));
    if id in m.waiters {
      SettledIsCancel(limits, m, id, why);
      ArmedKeeps(limits, Settled(m, id, Refused(why)), now);
    }
  }

  lemma QueueOrRefuseKeepsInv(limits: Limits, n: Mem, id: Id, waitMs: Option<int>, now: int)
    requires Inv(limits, n, now)
    ensures Inv(limits, QueueOrRefuse(limits, n, id, waitMs, now), now)
    ensures Reaches(limits, Abs(n), Abs(QueueOrRefuse(limits, n, id, waitMs, now)))
  {
    ReachesSelf(limits, Abs(n));
    if id in n.waiters && limits.maxQueued.Some? && |n.waiters| > limits.maxQueued.value {
      GivingUpKeepsInv(limits, n, now, id, QueueFull, now);
    }
  }

  lemma EnqueueAndScheduleKeepsInv(limits: Limits, m: Mem, w: string, now: int, expiry: int)
    requires Core(limits, m) && w in limits.workloads
    ensures TicketsBelow(Enqueued(m, w))
    ensures Inv(limits, Schedule(limits, Enqueued(m, w), now, expiry), now)
    ensures Reaches(limits, Abs(m), Abs(Schedule(limits, Enqueued(m, w), now, expiry)))
  {
    EnqueueKeepsCore(limits, m, w);
    ScheduleEstablishesInv(limits, Enqueued(m, w), now, expiry);
    ReachesTransitive(limits, Abs(m), Abs(Enqueued(m, w)), Abs(Schedule(limits, Enqueued(m, w), now, expiry)));
  }

  lemma AdmittedKeepsInv(limits: Limits, m: Mem, workload: string, waitMs: Option<int>, now: int, expiry: int)
    requires Core(limits, m) && workload in limits.workloads
    ensures Inv(limits, Admitted(limits, m, workload, waitMs, now, expiry), now)
    ensures Reaches(limits, Abs(m), Abs(Admitted(limits, m, workload, waitMs, now, expiry)))
  {
    var n := Schedule(limits, Enqueued(m, workload), now, expiry);
    EnqueueAndScheduleKeepsInv(limits, m, workload, now, expiry);
    QueueOrRefuseKeepsInv(limits, n, m.nextId, waitMs, now);
    ReachesTransitive(limits, Abs(m), Abs(n), Abs(QueueOrRefuse(limits, n, m.nextId, waitMs, now)));
  }

  lemma AcquireKeepsInv(limits: Limits, m: Mem, clock: int, workload: Option<string>, aborted: bool,
                        timeoutMs: Option<int>, now: int, expiry: int)
    requires clock <= now && Inv(limits, m, clock)
    ensures Inv(limits, AfterAcquire(limits, m, workload, aborted, timeoutMs, now, expiry), now)
    ensures Reaches(limits, Abs(m), Abs(AfterAcquire(limits, m, workload, aborted, timeoutMs, now, expiry)))
  {
    var target := ResolveWorkload(limits, workload);
    if target.Err? || aborted {
      ReachesSelf(limits, Abs(m));
    } else {
      AdmittedKeepsInv(limits, m, target.value.0, MinDefined(timeoutMs, target.value.1.maxWaitMs), now, expiry);
    }
  }

  lemma ExtendIsRenew(limits: Limits, m: Mem, slot: Id, now: int, expiry: int)
    requires Core(limits, m) && NobodyWaitsInVain(limits, Abs(m)) && slot in m.slots && m.slots[slot].expiresAt > now
    ensures Core(limits, Extended(m, slot, expiry)) && NobodyWaitsInVain(limits, Abs(Extended(m, slot, expiry)))
    ensures Reaches(limits, Abs(m), Abs(Extended(m, slot, expiry)))
  {
    ReachesStep(limits, Abs(m), Allocator.Renew(slot, now, expiry), Abs(Extended(m, slot, expiry)));
    RenewSlot(limits, m.slots, slot, expiry);
  }

  lemma RenewKeepsInv(limits: Limits, m: Mem, slot: Id, now: int, expiry: int)
    requires Core(limits, m) && NobodyWaitsInVain(limits, Abs(m))
    ensures Inv(limits, AfterRenew(limits, m, slot, now, expiry), now)
    ensures Reaches(limits, Abs(m), Abs(AfterRenew(limits, m, slot, now, expiry)))
  {
    if slot !in m.slots || m.slots[slot].expiresAt <= now {
      ScheduleEstablishesInv(limits, m, now, expiry);
    } else {
      ExtendIsRenew(limits, m, slot, now, expiry);
      ArmedKeeps(limits, Extended(m, slot, expiry), now);
    }
  }

  lemma ReleaseKeepsInv(limits: Limits, m: Mem, slot: Id, now: int, expiry: int)
    requires Core(limits, m)
    ensures Inv(limits, AfterRelease(limits, m, slot, now, expiry), now)
    ensures Reaches(limits, Abs(m), Abs(AfterRelease(limits, m, slot, now, expiry)))
  {
    var n := m.(slots := m.slots - {slot});
    ReachesStep(limits, Abs(m), Allocator.Release({slot}), Abs(n));
    ScheduleEstablishesInv(limits, n, now, expiry);
    ReachesTransitive(limits, Abs(m), Abs(n), Abs(Schedule(limits, n, now, expiry)));
  }

  lemma TimerKeepsInv(limits: Limits, m: Mem, now: int, expiry: int)
    requires Core(limits, m)
    ensures Inv(limits, AfterTimer(limits, m, now, expiry), now)
    ensures Reaches(limits, Abs(m), Abs(AfterTimer(limits, m, now, expiry)))
  {
    ScheduleEstablishesInv(limits, m.(timer := None), now, expiry);
    assert Abs(m.(timer := None)) == Abs(m);
  }

  datatype Event =
    | Acquire(workload: Option<string>, aborted: bool, timeoutMs: Option<int>)
    | Abort(waiter: Id)
    | WaitTimeout(waiter: Id)
    | TimerFires
    | Renew(slot: Id)
    | Release(slot: Id)

  /** Timers fire only when due; every other event may happen at any time. */
  ghost predicate Enabled(m: Mem, e: Event, now: int) {
    match e
    case WaitTimeout(id) => id in m.deadlines && m.deadlines[id] <= now
    case TimerFires => m.timer.Some? && m.timer.value <= now
    case _ => true
  }

  ghost function After(limits: Limits, m: Mem, e: Event, now: int, expiry: int): Mem
    requires TicketsBelow(m)
  {
    match e
    case Acquire(workload, aborted, timeoutMs) => AfterAcquire(limits, m, workload, aborted, timeoutMs, now, expiry)
    case Abort(id) => AfterGivingUp(m, id, Aborted, now)
    case WaitTimeout(id) => AfterGivingUp(m, id, TimedOut, now)
    case TimerFires => AfterTimer(limits, m, now, expiry)
    case Renew(slot) => AfterRenew(limits, m, slot, now, expiry)
    case Release(slot) => AfterRelease(limits, m, slot, now, expiry)
  }

  /**
   One event, from any state that satisfies the invariant. In particular no queued
   request is admissible afterwards, although abort, wait-limit and queue-full
   removals start no new pass.
   */
  lemma EventKeepsInv(limits: Limits, m: Mem, clock: int, e: Event, now: int, expiry: int)
    requires clock <= now && Inv(limits, m, clock)
    ensures Inv(limits, After(limits, m, e, now, expiry), now)
    ensures Reaches(limits, Abs(m), Abs(After(limits, m, e, now, expiry)))
  {
    var n := After(limits, m, e, now, expiry);
    match e {
      case Acquire(workload, aborted, timeoutMs) =>
        assert n == AfterAcquire(limits, m, workload, aborted, timeoutMs, now, expiry);
        AcquireKeepsInv(limits, m, clock, workload, aborted, timeoutMs, now, expiry);
      case Abort(id) =>
        assert n == AfterGivingUp(m, id, Aborted, now);
        GivingUpKeepsInv(limits, m, clock, id, Aborted, now);
      case WaitTimeout(id) =>
        assert n == AfterGivingUp(m, id, TimedOut, now);
        GivingUpKeepsInv(limits, m, clock, id, TimedOut, now);
      case TimerFires =>
        assert n == AfterTimer(limits, m, now, expiry);
        TimerKeepsInv(limits, m, now, expiry);
      case Renew(slot) =>
        assert n == AfterRenew(limits, m, slot, now, expiry);
        RenewKeepsInv(limits, m, slot, now, expiry);
      case Release(slot) =>
        assert n == AfterRelease(limits, m, slot, now, expiry);
        ReleaseKeepsInv(limits, m, slot, now, expiry);
    }
  }

  // ----- whole runs -----

  function Empty(lags: seq<nat>): Mem {
    Mem(map[], map[], map[], map[], 0, 0, None, lags)
  }

  datatype Timed = Timed(event: Event, now: int, expiry: int)

  /** A run: events with their times, each enabled when it happens, the clock never going back. */
  ghost predicate IsRun(limits: Limits, ttl: int, m: Mem, clock: int, events: seq<Timed>, end: Mem, endClock: int)
    decreases events
  {
    if events == [] then end == m && endClock == clock
    else
      var e := events[0];
      && clock <= e.now && e.expiry == e.now + ttl
      && TicketsBelow(m)
      && Enabled(m, e.event, e.now)
      && IsRun(limits, ttl, After(limits, m, e.event, e.now, e.expiry), e.now, events[1..], end, endClock)
  }

  lemma {:induction false} RunKeepsInv(limits: Limits, ttl: int, m: Mem, clock: int, events: seq<Timed>, end: Mem,
                                       endClock: int)
    requires Inv(limits, m, clock) && IsRun(limits, ttl, m, clock, events, end, endClock)
    ensures Inv(limits, end, endClock) && Reaches(limits, Abs(m), Abs(end))
    decreases events
  {
    if events == [] {
      ReachesSelf(limits, Abs(m));
    } else {
      var e := events[0];
      var next := After(limits, m, e.event, e.now, e.expiry);
      EventKeepsInv(limits, m, clock, e.event, e.now, e.expiry);
      RunKeepsInv(limits, ttl, next, e.now, events[1..], end, endClock);
      ReachesTransitive(limits, Abs(m), Abs(next), Abs(end));
    }
  }

  lemma EmptyIsSound(limits: Limits, lags: seq<nat>, clock: int)
    requires Bounded(limits, map[])
    ensures Inv(limits, Empty(lags), clock)
  {
    var none := ActiveOf(limits, map[]);
    assert forall w :: Held(map[], w) == {};
    AllZeros(none);
    assert Shortfalls(limits, none) == Shortfalls(limits, map[]);
  }

  /**
   Every run of the in-memory limiter, from the start and in any interleaving of its
   events: capacity, ceilings and reservations are respected, reserved slots are
   always served, nobody waits in vain, and the timer is set for the next expiry.
   */
  lemma EveryRunIsSafeAndLive(limits: Limits, ttl: int, lags: seq<nat>, clock: int, events: seq<Timed>, end: Mem,
                              endClock: int, w: string)
    requires Valid(limits) && Bounded(limits, map[]) && w in limits.workloads
    requires IsRun(limits, ttl, Empty(lags), clock, events, end, endClock)
    ensures |end.slots| <= limits.maxConcurrent
    ensures |Held(end.slots, w)| <= limits.workloads[w].maxConcurrent
    ensures |Held(end.slots, w)| + OthersReserved(limits, w) <= limits.maxConcurrent
    ensures (exists id :: id in end.waiters && end.waiters[id].workload == w) ==>
              |Held(end.slots, w)| >= limits.workloads[w].reserved
    ensures NobodyWaitsInVain(limits, Abs(end)) && TimerArmed(end, endClock)
  {
    EmptyIsSound(limits, lags, clock);
    RunKeepsInv(limits, ttl, Empty(lags), clock, events, end, endClock);
    InvIsSafe(limits, Abs(end), w);
    if id :| id in end.waiters && end.waiters[id].workload == w {
      ReservationsAreServed(limits, Abs(end), id);
    }
  }

  // ----- the queue limit -----

  ghost predicate QueueBounded(limits: Limits, m: Mem) {
    limits.maxQueued.Some? ==> |m.waiters| <= limits.maxQueued.value
  }

  lemma FewerWaiters(a: map<Id, Ticket>, b: map<Id, Ticket>)
    requires a.Keys <= b.Keys
    ensures |a| <= |b|
  {
    SubsetSize(a.Keys, b.Keys);
    assert |a| == |a.Keys| && |b| == |b.Keys|;
  }

  lemma ScheduleOnlyShrinksTheQueue(limits: Limits, m: Mem, now: int, expiry: int)
    requires TicketsBelow(m)
    ensures Schedule(limits, m, now, expiry).waiters.Keys <= m.waiters.Keys
    ensures |Schedule(limits, m, now, expiry).waiters| <= |m.waiters|
  {
    var p := Purged(m, now);
    GrantEachIsAddGrants(p, Grants(limits, ActiveOf(limits, p.slots), Queue(p.waiters)), now, expiry);
    FewerWaiters(Schedule(limits, m, now, expiry).waiters, m.waiters);
  }

  lemma AcquireKeepsQueueBound(limits: Limits, m: Mem, workload: Option<string>, aborted: bool,
                               timeoutMs: Option<int>, now: int, expiry: int)
    requires TicketsBelow(m) && QueueBounded(limits, m)
    ensures QueueBounded(limits, AfterAcquire(limits, m, workload, aborted, timeoutMs, now, expiry))
  {
    var target := ResolveWorkload(limits, workload);
    if target.Ok? && !aborted {
      var q := Enqueued(m, target.value.0);
      ScheduleOnlyShrinksTheQueue(limits, q, now, expiry);
      QueueOrRefuseBounds(limits, m, Schedule(limits, q, now, expiry), MinDefined(timeoutMs, target.value.1.maxWaitMs),
                          now);
    }
  }

  lemma QueueOrRefuseBounds(limits: Limits, m: Mem, n: Mem, waitMs: Option<int>, now: int)
    requires QueueBounded(limits, m) && n.waiters.Keys <= m.waiters.Keys + {m.nextId}
    ensures QueueBounded(limits, QueueOrRefuse(limits, n, m.nextId, waitMs, now))
  {
    FewerWaiters(n.waiters - {m.nextId}, m.waiters);
    if m.nextId !in n.waiters {
      FewerWaiters(n.waiters, m.waiters);
    }
  }

  lemma PassKeepsQueueBound(limits: Limits, m: Mem, now: int, expiry: int)
    requires TicketsBelow(m) && QueueBounded(limits, m)
    ensures QueueBounded(limits, Schedule(limits, m, now, expiry))
  {
    ScheduleOnlyShrinksTheQueue(limits, m, now, expiry);
  }

  lemma GivingUpKeepsQueueBound(limits: Limits, m: Mem, id: Id, why: Refusal, now: int)
    requires QueueBounded(limits, m)
    ensures QueueBounded(limits, AfterGivingUp(m, id, why, now))
  {
    FewerWaiters(m.waiters - {id}, m.waiters);
  }

  /** No event leaves more than `maxQueued` requests waiting. */
  lemma EventKeepsQueueBound(limits: Limits, m: Mem, e: Event, now: int, expiry: int)
    requires TicketsBelow(m) && QueueBounded(limits, m)
    ensures QueueBounded(limits, After(limits, m, e, now, expiry))
  {
    var n := After(limits, m, e, now, expiry);
    match e {
      case Acquire(workload, aborted, timeoutMs) =>
        assert n == AfterAcquire(limits, m, workload, aborted, timeoutMs, now, expiry);
        AcquireKeepsQueueBound(limits, m, workload, aborted, timeoutMs, now, expiry);
      case Abort(id) =>
        assert n == AfterGivingUp(m, id, Aborted, now);
        GivingUpKeepsQueueBound(limits, m, id, Aborted, now);
      case WaitTimeout(id) =>
        assert n == AfterGivingUp(m, id, TimedOut, now);
        GivingUpKeepsQueueBound(limits, m, id, TimedOut, now);
      case TimerFires =>
        assert n == Schedule(limits, m.(timer := None), now, expiry);
        PassKeepsQueueBound(limits, m.(timer := None), now, expiry);
      case Renew(slot) =>
        assert n == AfterRenew(limits, m, slot, now, expiry);
        PassKeepsQueueBound(limits, m, now, expiry);
      case Release(slot) =>
        assert n == Schedule(limits, m.(slots := m.slots - {slot}), now, expiry);
        PassKeepsQueueBound(limits, m.(slots := m.slots - {slot}), now, expiry);
    }
  }

  // ----- slots over time -----

  ghost predicate SlotIdsBelow(m: Mem) {
    forall id :: id in m.slots ==> id < m.nextId
  }

  ghost predicate ExpireBy(slots: map<Id, Slot>, horizon: int) {
    forall id :: id in slots ==> slots[id].expiresAt <= horizon
  }

  /** The slot is still there, for the same workload and at least as long. */
  ghost predicate KeepsSlot(m: Mem, n: Mem, id: Id)
    requires id in m.slots
  {
    && id in n.slots
    && n.slots[id].expiresAt >= m.slots[id].expiresAt
    && n.slots[id].workload == m.slots[id].workload
  }

  lemma ScheduleKeepsSlot(limits: Limits, m: Mem, now: int, expiry: int, id: Id)
    requires TicketsBelow(m) && SlotIdsBelow(m)
    requires id in m.slots && now < m.slots[id].expiresAt
    ensures KeepsSlot(m, Schedule(limits, m, now, expiry), id)
  {
    var p := Purged(m, now);
    GrantEachExpiry(p, Grants(limits, ActiveOf(limits, p.slots), Queue(p.waiters)), now, expiry);
  }

  lemma AdmittedKeepsSlot(limits: Limits, m: Mem, workload: string, waitMs: Option<int>, now: int, expiry: int, id: Id)
    requires TicketsBelow(m) && SlotIdsBelow(m) && id in m.slots && now < m.slots[id].expiresAt
    ensures KeepsSlot(m, Admitted(limits, m, workload, waitMs, now, expiry), id)
  {
    ScheduleKeepsSlot(limits, Enqueued(m, workload), now, expiry, id);
    QueueOrRefuseKeepsOthers(limits, Schedule(limits, Enqueued(m, workload), now, expiry), m.nextId, waitMs, now);
  }

  lemma AcquireKeepsSlot(limits: Limits, m: Mem, workload: Option<string>, aborted: bool,
                         timeoutMs: Option<int>, now: int, expiry: int, id: Id)
    requires TicketsBelow(m) && SlotIdsBelow(m) && id in m.slots && now < m.slots[id].expiresAt
    ensures KeepsSlot(m, AfterAcquire(limits, m, workload, aborted, timeoutMs, now, expiry), id)
  {
    var target := ResolveWorkload(limits, workload);
    if target.Ok? && !aborted {
      var waitMs := MinDefined(timeoutMs, target.value.1.maxWaitMs);
      AdmittedKeepsSlot(limits, m, target.value.0, waitMs, now, expiry, id);
    }
  }

  /** No event takes a slot away before it expires except its own release, and none shortens it. */
  lemma EventKeepsSlot(limits: Limits, m: Mem, e: Event, now: int, expiry: int, id: Id)
    requires TicketsBelow(m) && SlotIdsBelow(m) && ExpireBy(m.slots, expiry)
    requires id in m.slots && e != Event.Release(id) && now < m.slots[id].expiresAt
    ensures KeepsSlot(m, After(limits, m, e, now, expiry), id)
  {
    var n := After(limits, m, e, now, expiry);
    match e {
      case Acquire(workload, aborted, timeoutMs) =>
        assert n == AfterAcquire(limits, m, workload, aborted, timeoutMs, now, expiry);
        AcquireKeepsSlot(limits, m, workload, aborted, timeoutMs, now, expiry, id);
      case TimerFires =>
        assert n == Schedule(limits, m.(timer := None), now, expiry);
        ScheduleKeepsSlot(limits, m.(timer := None), now, expiry, id);
      case Renew(slot) =>
        assert n == AfterRenew(limits, m, slot, now, expiry);
        ScheduleKeepsSlot(limits, m, now, expiry, id);
      case Release(slot) =>
        assert n == Schedule(limits, m.(slots := m.slots - {slot}), now, expiry);
        ScheduleKeepsSlot(limits, m.(slots := m.slots - {slot}), now, expiry, id);
      case _ =>
    }
  }

  lemma AcquireKeepsHorizon(limits: Limits, m: Mem, workload: Option<string>, aborted: bool,
                            timeoutMs: Option<int>, now: int, expiry: int)
    requires TicketsBelow(m) && SlotIdsBelow(m) && ExpireBy(m.slots, expiry)
    ensures ExpireBy(AfterAcquire(limits, m, workload, aborted, timeoutMs, now, expiry).slots, expiry)
  {
    var target := ResolveWorkload(limits, workload);
    if target.Ok? && !aborted {
      ScheduleKeepsHorizon(limits, Enqueued(m, target.value.0), now, expiry);
    }
  }

  /** Nor does any event leave a slot behind that outlives a lease time from now. */
  lemma EventKeepsHorizon(limits: Limits, m: Mem, e: Event, now: int, expiry: int)
    requires TicketsBelow(m) && SlotIdsBelow(m) && ExpireBy(m.slots, expiry)
    ensures ExpireBy(After(limits, m, e, now, expiry).slots, expiry)
  {
    var n := After(limits, m, e, now, expiry);
    match e {
      case Acquire(workload, aborted, timeoutMs) =>
        assert n == AfterAcquire(limits, m, workload, aborted, timeoutMs, now, expiry);
        AcquireKeepsHorizon(limits, m, workload, aborted, timeoutMs, now, expiry);
      case TimerFires =>
        assert n == Schedule(limits, m.(timer := None), now, expiry);
        ScheduleKeepsHorizon(limits, m.(timer := None), now, expiry);
      case Renew(slot) =>
        assert n == AfterRenew(limits, m, slot, now, expiry);
        ScheduleKeepsHorizon(limits, m, now, expiry);
      case Release(slot) =>
        assert n == Schedule(limits, m.(slots := m.slots - {slot}), now, expiry);
        ScheduleKeepsHorizon(limits, m.(slots := m.slots - {slot}), now, expiry);
      case _ =>
    }
  }

  lemma ScheduleKeepsHorizon(limits: Limits, m: Mem, now: int, expiry: int)
    requires TicketsBelow(m) && SlotIdsBelow(m) && ExpireBy(m.slots, expiry)
    ensures ExpireBy(Schedule(limits, m, now, expiry).slots, expiry)
  {
    var p := Purged(m, now);
    GrantEachExpiry(p, Grants(limits, ActiveOf(limits, p.slots), Queue(p.waiters)), now, expiry);
  }

  /** Every slot that is new lasts a full lease time. */
  ghost predicate NewSlotsLast(m: Mem, n: Mem, expiry: int) {
    forall id :: id in n.slots && id !in m.slots ==> n.slots[id].expiresAt == expiry
  }

  lemma ScheduleGrantsFullLeases(limits: Limits, m: Mem, now: int, expiry: int)
    requires TicketsBelow(m) && SlotIdsBelow(m)
    ensures NewSlotsLast(m, Schedule(limits, m, now, expiry), expiry)
  {
    var p := Purged(m, now);
    GrantEachExpiry(p, Grants(limits, ActiveOf(limits, p.slots), Queue(p.waiters)), now, expiry);
    GrantEachAddsAbove(p, Grants(limits, ActiveOf(limits, p.slots), Queue(p.waiters)), now, expiry);
  }

  lemma {:induction false} GrantEachAddsAbove(m: Mem, grants: seq<Waiter>, now: int, expiry: int)
    ensures GrantEach(m, grants, now, expiry).nextId >= m.nextId
    ensures forall id :: id in GrantEach(m, grants, now, expiry).slots ==> id in m.slots || id >= m.nextId
    decreases grants
  {
    if grants != [] {
      GrantEachAddsAbove(GrantOne(m, grants[0], now, expiry), grants[1..], now, expiry);
    }
  }

  lemma AdmittedGrantsFullLeases(limits: Limits, m: Mem, workload: string, waitMs: Option<int>, now: int, expiry: int)
    requires TicketsBelow(m) && SlotIdsBelow(m)
    ensures NewSlotsLast(m, Admitted(limits, m, workload, waitMs, now, expiry), expiry)
  {
    ScheduleGrantsFullLeases(limits, Enqueued(m, workload), now, expiry);
    QueueOrRefuseKeepsOthers(limits, Schedule(limits, Enqueued(m, workload), now, expiry), m.nextId, waitMs, now);
  }

  lemma AcquireGrantsFullLeases(limits: Limits, m: Mem, workload: Option<string>, aborted: bool,
                                timeoutMs: Option<int>, now: int, expiry: int)
    requires TicketsBelow(m) && SlotIdsBelow(m)
    ensures NewSlotsLast(m, AfterAcquire(limits, m, workload, aborted, timeoutMs, now, expiry), expiry)
  {
    var target := ResolveWorkload(limits, workload);
    if target.Ok? && !aborted {
      var waitMs := MinDefined(timeoutMs, target.value.1.maxWaitMs);
      AdmittedGrantsFullLeases(limits, m, target.value.0, waitMs, now, expiry);
    }
  }

  lemma EventGrantsFullLeases(limits: Limits, m: Mem, e: Event, now: int, expiry: int)
    requires TicketsBelow(m) && SlotIdsBelow(m)
    ensures e.Release? || NewSlotsLast(m, After(limits, m, e, now, expiry), expiry)
    ensures e.Release? ==> NewSlotsLast(m.(slots := m.slots - {e.slot}), After(limits, m, e, now, expiry), expiry)
  {
    var n := After(limits, m, e, now, expiry);
    match e {
      case Acquire(workload, aborted, timeoutMs) =>
        assert n == AfterAcquire(limits, m, workload, aborted, timeoutMs, now, expiry);
        AcquireGrantsFullLeases(limits, m, workload, aborted, timeoutMs, now, expiry);
      case TimerFires =>
        assert n == Schedule(limits, m.(timer := None), now, expiry);
        ScheduleGrantsFullLeases(limits, m.(timer := None), now, expiry);
      case Renew(slot) =>
        assert n == AfterRenew(limits, m, slot, now, expiry);
        ScheduleGrantsFullLeases(limits, m, now, expiry);
      case Release(slot) =>
        assert n == Schedule(limits, m.(slots := m.slots - {slot}), now, expiry);
        ScheduleGrantsFullLeases(limits, m.(slots := m.slots - {slot}), now, expiry);
      case _ =>
    }
  }

  // ----- promises and slots correspond -----

  predicate SameLease(a: Outcome, b: Outcome) {
    a.Leased? && b.Leased? && a.slot == b.slot
  }

  /** Some request was given this slot. */
  ghost predicate HasOwner(outcomes: map<Id, Outcome>, slot: Id, workload: string) {
    exists i :: i in outcomes && outcomes[i].Leased? && outcomes[i].slot == slot && outcomes[i].workload == workload
  }

  lemma OwnerStays(outcomes: map<Id, Outcome>, more: map<Id, Outcome>, slot: Id, workload: string)
    requires HasOwner(outcomes, slot, workload)
    requires forall i :: i in outcomes ==> i in more && more[i] == outcomes[i]
    ensures HasOwner(more, slot, workload)
  {
    var i :| i in outcomes && outcomes[i].Leased? && outcomes[i].slot == slot && outcomes[i].workload == workload;
    assert more[i] == outcomes[i];
  }

  /** Every issued promise is pending or settled, never both; every slot was handed to exactly one request. */
  ghost predicate Bookkeeping(m: Mem) {
    && m.waiters.Keys !! m.outcomes.Keys
    && m.deadlines.Keys <= m.waiters.Keys
    && (forall id :: id in m.outcomes ==> id < m.nextId && (m.outcomes[id].Leased? ==> m.outcomes[id].slot < m.nextId))
    && (forall i, j :: i in m.outcomes && j in m.outcomes && SameLease(m.outcomes[i], m.outcomes[j]) ==> i == j)
    && (forall id :: id in m.slots ==> HasOwner(m.outcomes, id, m.slots[id].workload))
  }

  lemma GrantOneKeepsBookkeeping(m: Mem, x: Waiter, now: int, expiry: int)
    requires Bookkeeping(m) && SlotIdsBelow(m) && x.id in m.waiters && x.id < m.nextId
    ensures Bookkeeping(GrantOne(m, x, now, expiry))
  {
    var n := GrantOne(m, x, now, expiry);
    forall id | id in n.slots ensures HasOwner(n.outcomes, id, n.slots[id].workload) {
      if id == m.nextId {
        assert n.outcomes[x.id].slot == id;
      } else {
        OwnerStays(m.outcomes, n.outcomes, id, m.slots[id].workload);
      }
    }
  }

  lemma {:induction false} GrantEachKeepsBookkeeping(m: Mem, grants: seq<Waiter>, now: int, expiry: int)
    requires Bookkeeping(m) && TicketsBelow(m) && SlotIdsBelow(m)
    requires NoDuplicates(Ids(grants)) && forall x :: x in grants ==> x.id in m.waiters
    ensures Bookkeeping(GrantEach(m, grants, now, expiry))
    decreases grants
  {
    if grants != [] {
      GrantOneKeepsBookkeeping(m, grants[0], now, expiry);
      IdsTail(grants);
      GrantEachKeepsBookkeeping(GrantOne(m, grants[0], now, expiry), grants[1..], now, expiry);
    }
  }

  lemma ScheduleKeepsBookkeeping(limits: Limits, m: Mem, now: int, expiry: int)
    requires TicketsBelow(m) && SlotIdsBelow(m) && Bookkeeping(m)
    ensures Bookkeeping(Schedule(limits, m, now, expiry))
  {
    var p := Purged(m, now);
    GrantsAreQueued(limits, ActiveOf(limits, p.slots), p.waiters);
    GrantEachKeepsBookkeeping(p, Grants(limits, ActiveOf(limits, p.slots), Queue(p.waiters)), now, expiry);
  }

  lemma RefuseKeepsBookkeeping(m: Mem, why: Refusal)
    requires Bookkeeping(m) && TicketsBelow(m)
    ensures Bookkeeping(Refuse(m, why))
  {
    forall id | id in m.slots ensures HasOwner(Refuse(m, why).outcomes, id, m.slots[id].workload) {
      OwnerStays(m.outcomes, Refuse(m, why).outcomes, id, m.slots[id].workload);
    }
  }

  lemma GivingUpKeepsBookkeeping(m: Mem, id: Id, why: Refusal, now: int)
    requires Bookkeeping(m) && TicketsBelow(m)
    ensures Bookkeeping(AfterGivingUp(m, id, why, now))
  {
    if id in m.waiters {
      forall i | i in m.slots ensures HasOwner(Settled(m, id, Refused(why)).outcomes, i, m.slots[i].workload) {
        OwnerStays(m.outcomes, Settled(m, id, Refused(why)).outcomes, i, m.slots[i].workload);
      }
    }
  }

  /** What no event undoes: settled promises stay settled, and only queued requests or new ids gain anything. */
  ghost predicate Grows(m: Mem, n: Mem, asked: set<Id>) {
    && n.nextId >= m.nextId
    && (forall p :: p in m.outcomes ==> p in n.outcomes && n.outcomes[p] == m.outcomes[p])
    && (forall p :: p in n.outcomes && p !in m.outcomes ==> p in m.waiters || p in asked)
    && (forall p :: p in n.waiters ==> p in m.waiters || p in asked)
    && (forall p :: p in m.waiters ==> p in n.waiters || p in n.outcomes)
    && (forall p :: p in n.waiters && p in m.waiters ==> n.waiters[p] == m.waiters[p])
    && (forall s :: s in n.slots ==> s in m.slots || s >= m.nextId)
  }

  lemma EnqueuedBookkeeping(m: Mem, w: string)
    requires Bookkeeping(m) && TicketsBelow(m) && SlotIdsBelow(m)
    ensures Bookkeeping(Enqueued(m, w)) && TicketsBelow(Enqueued(m, w)) && SlotIdsBelow(Enqueued(m, w))
    ensures Grows(m, Enqueued(m, w), {m.nextId})
  {
  }

  lemma QueueOrRefuseKeepsBookkeeping(limits: Limits, n: Mem, id: Id, waitMs: Option<int>, now: int)
    requires Bookkeeping(n) && TicketsBelow(n)
    ensures Bookkeeping(QueueOrRefuse(limits, n, id, waitMs, now))
  {
    GivingUpKeepsBookkeeping(n, id, QueueFull, now);
  }

  lemma ScheduleKeepsOrder(limits: Limits, m: Mem, now: int, expiry: int)
    requires TicketsBelow(m) && SlotIdsBelow(m)
    ensures TicketsBelow(Schedule(limits, m, now, expiry))
  {
    var p := Purged(m, now);
    PassKeepsOrder(limits, p, Grants(limits, ActiveOf(limits, p.slots), Queue(p.waiters)), now, expiry);
  }

  lemma AcquireKeepsBookkeeping(limits: Limits, m: Mem, workload: Option<string>, aborted: bool,
                                timeoutMs: Option<int>, now: int, expiry: int)
    requires TicketsBelow(m) && SlotIdsBelow(m) && Bookkeeping(m)
    ensures Bookkeeping(AfterAcquire(limits, m, workload, aborted, timeoutMs, now, expiry))
  {
    var target := ResolveWorkload(limits, workload);
    if target.Err? || aborted {
      RefuseKeepsBookkeeping(m, if target.Err? then BadWorkload else Aborted);
    } else {
      var e := Enqueued(m, target.value.0);
      EnqueuedBookkeeping(m, target.value.0);
      ScheduleKeepsBookkeeping(limits, e, now, expiry);
      ScheduleKeepsOrder(limits, e, now, expiry);
      QueueOrRefuseKeepsBookkeeping(limits, Schedule(limits, e, now, expiry), m.nextId,
                                    MinDefined(timeoutMs, target.value.1.maxWaitMs), now);
    }
  }

  lemma ExtendKeepsBookkeeping(m: Mem, slot: Id, expiry: int)
    requires Bookkeeping(m) && slot in m.slots
    ensures Bookkeeping(Extended(m, slot, expiry))
  {
    var n := Extended(m, slot, expiry);
    assert forall id :: id in n.slots ==> id in m.slots && n.slots[id].workload == m.slots[id].workload;
  }

  lemma RenewKeepsBookkeeping(limits: Limits, m: Mem, slot: Id, now: int, expiry: int)
    requires TicketsBelow(m) && SlotIdsBelow(m) && Bookkeeping(m)
    ensures Bookkeeping(AfterRenew(limits, m, slot, now, expiry))
  {
    if slot in m.slots && m.slots[slot].expiresAt > now {
      ExtendKeepsBookkeeping(m, slot, expiry);
    } else {
      ScheduleKeepsBookkeeping(limits, m, now, expiry);
    }
  }

  /** Every promise stays pending or settles once, and every slot keeps the one request it was given to. */
  lemma EventKeepsBookkeeping(limits: Limits, m: Mem, e: Event, now: int, expiry: int)
    requires TicketsBelow(m) && SlotIdsBelow(m) && Bookkeeping(m)
    ensures Bookkeeping(After(limits, m, e, now, expiry))
  {
    var n := After(limits, m, e, now, expiry);
    match e {
      case Acquire(workload, aborted, timeoutMs) =>
        assert n == AfterAcquire(limits, m, workload, aborted, timeoutMs, now, expiry);
        AcquireKeepsBookkeeping(limits, m, workload, aborted, timeoutMs, now, expiry);
      case Abort(id) =>
        assert n == AfterGivingUp(m, id, Aborted, now);
        GivingUpKeepsBookkeeping(m, id, Aborted, now);
      case WaitTimeout(id) =>
        assert n == AfterGivingUp(m, id, TimedOut, now);
        GivingUpKeepsBookkeeping(m, id, TimedOut, now);
      case TimerFires =>
        assert n == Schedule(limits, m.(timer := None), now, expiry);
        ScheduleKeepsBookkeeping(limits, m.(timer := None), now, expiry);
      case Renew(slot) =>
        assert n == AfterRenew(limits, m, slot, now, expiry);
        RenewKeepsBookkeeping(limits, m, slot, now, expiry);
      case Release(slot) =>
        assert n == Schedule(limits, m.(slots := m.slots - {slot}), now, expiry);
        ScheduleKeepsBookkeeping(limits, m.(slots := m.slots - {slot}), now, expiry);
    }
  }

  // ----- promises over time -----

  lemma GrowsTwice(m: Mem, mid: Mem, n: Mem, asked: set<Id>)
    requires Grows(m, mid, asked) && Grows(mid, n, {})
    ensures Grows(m, n, asked)
  {
  }

  lemma {:induction false} GrantEachGrows(m: Mem, grants: seq<Waiter>, now: int, expiry: int)
    requires Bookkeeping(m) && TicketsBelow(m) && SlotIdsBelow(m)
    requires NoDuplicates(Ids(grants)) && forall x :: x in grants ==> x.id in m.waiters
    ensures Grows(m, GrantEach(m, grants, now, expiry), {})
    decreases grants
  {
    if grants != [] {
      var next := GrantOne(m, grants[0], now, expiry);
      GrantOneKeepsBookkeeping(m, grants[0], now, expiry);
      IdsTail(grants);
      GrantEachGrows(next, grants[1..], now, expiry);
      assert Grows(m, next, {});
      GrowsTwice(m, next, GrantEach(next, grants[1..], now, expiry), {});
    }
  }

  lemma ScheduleGrows(limits: Limits, m: Mem, now: int, expiry: int)
    requires Bookkeeping(m) && TicketsBelow(m) && SlotIdsBelow(m)
    ensures Grows(m, Schedule(limits, m, now, expiry), {})
  {
    var p := Purged(m, now);
    GrantsAreQueued(limits, ActiveOf(limits, p.slots), p.waiters);
    GrantEachGrows(p, Grants(limits, ActiveOf(limits, p.slots), Queue(p.waiters)), now, expiry);
  }

  /** The ids an event brings into play: the promise of an `acquire`. */
  function Asked(m: Mem, e: Event): set<Id> {
    if e.Acquire? then {m.nextId} else {}
  }

  lemma QueueOrRefuseGrows(limits: Limits, n: Mem, id: Id, waitMs: Option<int>, now: int)
    requires n.waiters.Keys !! n.outcomes.Keys
    ensures Grows(n, QueueOrRefuse(limits, n, id, waitMs, now), {})
  {
  }

  lemma AcquireGrows(limits: Limits, m: Mem, workload: Option<string>, aborted: bool, timeoutMs: Option<int>, now: int,
                     expiry: int)
    requires Bookkeeping(m) && TicketsBelow(m) && SlotIdsBelow(m)
    ensures Grows(m, AfterAcquire(limits, m, workload, aborted, timeoutMs, now, expiry), {m.nextId})
  {
    var target := ResolveWorkload(limits, workload);
    if target.Ok? && !aborted {
      var q := Enqueued(m, target.value.0);
      var n := Schedule(limits, q, now, expiry);
      EnqueuedBookkeeping(m, target.value.0);
      ScheduleGrows(limits, q, now, expiry);
      GrowsTwice(m, q, n, {m.nextId});
      ScheduleKeepsBookkeeping(limits, q, now, expiry);
      var waitMs := MinDefined(timeoutMs, target.value.1.maxWaitMs);
      QueueOrRefuseGrows(limits, n, m.nextId, waitMs, now);
      GrowsTwice(m, n, QueueOrRefuse(limits, n, m.nextId, waitMs, now), {m.nextId});
    }
  }

  lemma TimerGrows(limits: Limits, m: Mem, now: int, expiry: int)
    requires Bookkeeping(m) && TicketsBelow(m) && SlotIdsBelow(m)
    ensures Grows(m, AfterTimer(limits, m, now, expiry), {})
  {
    ScheduleGrows(limits, m.(timer := None), now, expiry);
  }

  lemma RenewGrows(limits: Limits, m: Mem, slot: Id, now: int, expiry: int)
    requires Bookkeeping(m) && TicketsBelow(m) && SlotIdsBelow(m)
    ensures Grows(m, AfterRenew(limits, m, slot, now, expiry), {})
  {
    if slot !in m.slots || m.slots[slot].expiresAt <= now {
      ScheduleGrows(limits, m, now, expiry);
    }
  }

  lemma ReleaseGrows(limits: Limits, m: Mem, slot: Id, now: int, expiry: int)
    requires Bookkeeping(m) && TicketsBelow(m) && SlotIdsBelow(m)
    ensures Grows(m, AfterRelease(limits, m, slot, now, expiry), {})
  {
    ScheduleGrows(limits, m.(slots := m.slots - {slot}), now, expiry);
  }

  lemma GivingUpGrows(m: Mem, id: Id, why: Refusal, now: int)
    requires Bookkeeping(m)
    ensures Grows(m, AfterGivingUp(m, id, why, now), {})
  {
  }

  lemma EventGrows(limits: Limits, m: Mem, e: Event, now: int, expiry: int)
    requires Bookkeeping(m) && TicketsBelow(m) && SlotIdsBelow(m)
    ensures Grows(m, After(limits, m, e, now, expiry), Asked(m, e))
  {
    var n := After(limits, m, e, now, expiry);
    match e {
      case Acquire(workload, aborted, timeoutMs) =>
        assert n == AfterAcquire(limits, m, workload, aborted, timeoutMs, now, expiry) && Asked(m, e) == {m.nextId};
        AcquireGrows(limits, m, workload, aborted, timeoutMs, now, expiry);
      case Abort(id) =>
        assert n == AfterGivingUp(m, id, Aborted, now) && Asked(m, e) == {};
        GivingUpGrows(m, id, Aborted, now);
      case WaitTimeout(id) =>
        assert n == AfterGivingUp(m, id, TimedOut, now) && Asked(m, e) == {};
        GivingUpGrows(m, id, TimedOut, now);
      case TimerFires =>
        assert n == AfterTimer(limits, m, now, expiry) && Asked(m, e) == {};
        TimerGrows(limits, m, now, expiry);
      case Renew(slot) =>
        assert n == AfterRenew(limits, m, slot, now, expiry) && Asked(m, e) == {};
        RenewGrows(limits, m, slot, now, expiry);
      case Release(slot) =>
        assert n == AfterRelease(limits, m, slot, now, expiry) && Asked(m, e) == {};
        ReleaseGrows(limits, m, slot, now, expiry);
    }
  }

  /** The promise of an `acquire` is queued for the workload that was asked for, or settled. */
  lemma AdmittedIsQueuedOrSettled(limits: Limits, m: Mem, workload: string, waitMs: Option<int>, now: int, expiry: int)
    requires Bookkeeping(m) && TicketsBelow(m) && SlotIdsBelow(m)
    ensures var n := Admitted(limits, m, workload, waitMs, now, expiry);
            && (m.nextId in n.waiters || m.nextId in n.outcomes)
            && (m.nextId in n.waiters ==> n.waiters[m.nextId].workload == workload)
  {
    EnqueuedBookkeeping(m, workload);
    ScheduleGrows(limits, Enqueued(m, workload), now, expiry);
    QueueOrRefuseKeepsOthers(limits, Schedule(limits, Enqueued(m, workload), now, expiry), m.nextId, waitMs, now);
  }

  lemma AcquireQueuesOrSettles(limits: Limits, m: Mem, workload: Option<string>, aborted: bool, timeoutMs: Option<int>,
                               now: int, expiry: int)
    requires Bookkeeping(m) && TicketsBelow(m) && SlotIdsBelow(m)
    ensures var n := AfterAcquire(limits, m, workload, aborted, timeoutMs, now, expiry);
            && (m.nextId in n.waiters || m.nextId in n.outcomes)
            && (workload.Some? && m.nextId in n.waiters ==> n.waiters[m.nextId].workload == workload.value)
  {
    var target := ResolveWorkload(limits, workload);
    if target.Ok? && !aborted {
      var waitMs := MinDefined(timeoutMs, target.value.1.maxWaitMs);
      AdmittedIsQueuedOrSettled(limits, m, target.value.0, waitMs, now, expiry);
    }
  }

  lemma ReleasedIsGone(limits: Limits, m: Mem, slot: Id, now: int, expiry: int)
    requires Bookkeeping(m) && TicketsBelow(m) && SlotIdsBelow(m) && slot < m.nextId
    ensures slot !in After(limits, m, Event.Release(slot), now, expiry).slots
  {
    ScheduleGrows(limits, m.(slots := m.slots - {slot}), now, expiry);
  }
}

/**
 The in-memory limiter as the object the source builds: one field per closure
 variable, one method per operation or timer callback, each tied to the state
 machine of module MemoryLimiter.
 */
module MemoryLimiterClass {
  import opened Prelude
  import opened Policy
  import opened PolicyTheorems
  import opened Allocator
  import opened LimiterSettings
  import M = MemoryLimiter

  // ----- a pass reads only the counts -----

  ghost predicate SameCounts(a: map<string, nat>, b: map<string, nat>) {
    forall w :: Active(a, w) == Active(b, w)
  }

  lemma SameTotals(limits: Limits, a: map<string, nat>, b: map<string, nat>)
    requires SameCounts(a, b)
    ensures Total(a) == Total(b) && Shortfalls(limits, a) == Shortfalls(limits, b)
  {
    FillWithZeros(a, a.Keys + b.Keys);
    FillWithZeros(b, a.Keys + b.Keys);
    assert (map v: string | v in a.Keys + b.Keys :: Active(a, v) as int) ==
           map v | v in a.Keys + b.Keys :: Active(b, v) as int;
  }

  lemma {:induction false} SweepSame(limits: Limits, a: map<string, nat>, b: map<string, nat>, s: seq<Waiter>)
    requires SameCounts(a, b)
    ensures Sweep(limits, a, s) == Sweep(limits, b, s)
    decreases s
  {
    if s != [] {
      SameTotals(limits, a, b);
      SweepSame(limits, a, b, s[1..]);
      assert Active(a, s[0].workload) == Active(b, s[0].workload);
      assert SameCounts(Grant(a, s[0].workload), Grant(b, s[0].workload)) by {
        forall w ensures Active(Grant(a, s[0].workload), w) == Active(Grant(b, s[0].workload), w) {
          assert Active(a, w) == Active(b, w);
        }
      }
      SweepSame(limits, Grant(a, s[0].workload), Grant(b, s[0].workload), s[1..]);
    }
  }

  /** The list holds every waiter but the pending ones, with distinct numbers. */
  ghost predicate ListedBut(waiters: map<Id, Ticket>, pending: set<Id>, listed: seq<Waiter>) {
    Elems(listed) == Queue(waiters - pending) && DistinctNumbers(listed)
  }

  ghost predicate DistinctNumbers(listed: seq<Waiter>) {
    forall i, j :: 0 <= i < j < |listed| ==> listed[i].ticket != listed[j].ticket
  }

  lemma ListOneMore(waiters: map<Id, Ticket>, pending: set<Id>, listed: seq<Waiter>, id: Id)
    requires id in pending && pending <= waiters.Keys && ListedBut(waiters, pending, listed)
    requires forall i, j :: i in waiters && j in waiters && waiters[i].number == waiters[j].number ==> i == j
    ensures ListedBut(waiters, pending - {id}, listed + [Waiter(id, waiters[id].workload, waiters[id].number)])
  {
    var x := Waiter(id, waiters[id].workload, waiters[id].number);
    forall k | 0 <= k < |listed| ensures listed[k].ticket != x.ticket {
      assert listed[k] in Elems(listed);
    }
    assert Elems(listed + [x]) == Elems(listed) + {x};
    var after := waiters - (pending - {id});
    assert forall i :: i in after <==> i == id || i in waiters - pending;
    assert Queue(after) == Queue(waiters - pending) + {x};
  }

  class InMemoryLimiter {
    const limits: Limits
    const names: seq<string>      // Object.keys(limits.workloads)
    const leaseTtlMs: int
    const lags: seq<nat>          // what the clock does between a pass and `toLease`
    var slots: map<Id, Slot>
    var waiters: map<Id, Ticket>
    var deadlines: map<Id, int>
    var outcomes: map<Id, M.Outcome>
    var nextId: Id
    var lastTicket: int
    var expiryTimer: Option<int>
    ghost var clock: int

    ghost function View(): M.Mem
      reads this
    {
      M.Mem(slots, waiters, deadlines, outcomes, nextId, lastTicket, expiryTimer, lags)
    }

    ghost predicate Valid()
      reads this
    {
      Lists(names, limits.workloads.Keys) && M.Inv(limits, View(), clock)
    }

    constructor (limits: Limits, names: seq<string>, leaseTtlMs: int, lags: seq<nat>, ghost now: int)
      requires Lists(names, limits.workloads.Keys) && Bounded(limits, map[])
      ensures Valid() && View() == M.Empty(lags) && clock == now
      ensures this.limits == limits && this.leaseTtlMs == leaseTtlMs
    {
      this.limits, this.names, this.leaseTtlMs, this.lags := limits, names, leaseTtlMs, lags;
      slots, waiters, deadlines, outcomes := map[], map[], map[], map[];
      nextId, lastTicket, expiryTimer := 0, 0, None;
      clock := now;
      new;
      M.EmptyIsSound(limits, lags, now);
    }

    method PurgeExpired(now: int)
      modifies this`slots
      ensures View() == M.Purged(old(View()), now)
      ensures forall id :: id in slots <==> id in old(slots) && old(slots)[id].expiresAt > now
      ensures forall id :: id in slots ==> slots[id] == old(slots)[id]
    {
      var pending := slots.Keys;
      while pending != {}
        invariant pending <= slots.Keys <= old(slots).Keys
        invariant forall id :: id in slots ==> slots[id] == old(slots)[id]
        invariant forall id :: id in old(slots) && id !in pending ==>
                    (id in slots <==> old(slots)[id].expiresAt > now)
        decreases |pending|
      {
        var id :| id in pending;
        pending := pending - {id};
        if slots[id].expiresAt <= now {
          slots := slots - {id};
        }
      }
      assert slots == M.Live(old(slots), now);
    }

    method ArmExpiryTimer(now: int)
      modifies this`expiryTimer
      ensures View() == M.Armed(old(View()), now)
    {
      expiryTimer := None;
      if waiters == map[] || slots == map[] {
        return;
      }
      var id :| id in slots;
      var next, pending := slots[id].expiresAt, slots.Keys - {id};
      while pending != {}
        invariant exists i :: i in slots && slots[i].expiresAt == next
        invariant pending <= slots.Keys
        invariant forall i :: i in slots && i !in pending ==> next <= slots[i].expiresAt
        decreases |pending|
      {
        var i :| i in pending;
        pending := pending - {i};
        if slots[i].expiresAt < next {
          next := slots[i].expiresAt;
        }
      }
      assert M.IsEarliest(slots, next);
      expiryTimer := Some(M.Max(now, next));
    }

    method CountActive() returns (active: map<string, nat>)
      ensures forall w :: Active(active, w) == |Held(slots, w)|
    {
      active := map[];
      var pending := slots.Keys;
      ghost var counted: map<Id, Slot> := map[];
      while pending != {}
        invariant pending <= slots.Keys
        invariant counted == slots - pending
        invariant forall w :: Active(active, w) == |Held(counted, w)|
        decreases |pending|
      {
        var id :| id in pending;
        var w := slots[id].workload;
        forall v ensures |Held(counted[id := slots[id]], v)| == |Held(counted, v)| + (if v == w then 1 else 0) {
          HeldWithSlot(counted, id, slots[id], v);
        }
        ghost var before := active;
        active := active[w := (if w in active then active[w] else 0) + 1];
        forall v ensures Active(active, v) == |Held(counted[id := slots[id]], v)| {
          assert Active(before, v) == |Held(counted, v)|;
        }
        assert slots - (pending - {id}) == counted[id := slots[id]];
        pending := pending - {id};
        counted := counted[id := slots[id]];
      }
      assert counted == slots;
    }

    method ListWaiters() returns (listed: seq<Waiter>)
      requires M.TicketsBelow(View())
      ensures Elems(listed) == Queue(waiters) && DistinctNumbers(listed)
    {
      listed := [];
      var pending := waiters.Keys;
      while pending != {}
        invariant pending <= waiters.Keys && ListedBut(waiters, pending, listed)
        decreases |pending|
      {
        var id :| id in pending;
        ListOneMore(waiters, pending, listed, id);
        listed := listed + [Waiter(id, waiters[id].workload, waiters[id].number)];
        pending := pending - {id};
      }
      assert waiters - pending == waiters;
    }

    method Settle(id: Id, outcome: M.Outcome)
      modifies this`waiters, this`deadlines, this`outcomes
      ensures View() == M.Settled(old(View()), id, outcome)
    {
      waiters, deadlines := waiters - {id}, deadlines - {id};
      outcomes := outcomes[id := outcome];
    }

    method GrantSlots(ids: seq<Id>, ghost grants: seq<Waiter>, now: int, expiry: int)
      requires ids == Ids(grants) && NoDuplicates(ids)
      requires forall x :: x in grants ==> x.id in waiters && waiters[x.id].workload == x.workload
      modifies this`slots, this`waiters, this`deadlines, this`outcomes, this`nextId
      ensures View() == M.GrantEach(old(View()), grants, now, expiry)
    {
      for i := 0 to |ids|
        invariant M.GrantEach(View(), grants[i..], now, expiry) == M.GrantEach(old(View()), grants, now, expiry)
        invariant forall k :: i <= k < |grants| ==> ids[k] in waiters && waiters[ids[k]].workload == grants[k].workload
      {
        var id := ids[i];
        if id !in waiters {
          continue;
        }
        var slot := Slot(waiters[id].workload, expiry);
        assert grants[i..][0] == grants[i] && grants[i..][1..] == grants[i + 1..];
        ghost var before := View();
        var slotId := nextId;
        nextId := nextId + 1;
        slots := slots[slotId := slot];
        Settle(id, M.Leased(slotId, slot.workload, M.LeaseTtl(slot, M.ReadAt(lags, slotId, now))));
        assert View() == M.GrantOne(before, grants[i], now, expiry);
      }
    }

    method Schedule(now: int, expiry: int)
      requires Lists(names, limits.workloads.Keys)
      requires M.TicketsBelow(View()) && KnownSlots(limits, slots)
      modifies this
      ensures View() == M.Schedule(limits, old(View()), now, expiry) && clock == old(clock)
    {
      PurgeExpired(now);
      var active := CountActive();
      var listed := ListWaiters();
      var ids := SelectGrants(limits, names, active, listed);
      ghost var expected := ActiveOf(limits, slots);
      forall w ensures Active(active, w) == Active(expected, w) {
        ActiveIsHeld(limits, slots, w);
      }
      SweepSame(limits, active, expected, Ranked(limits, Known(limits, Queue(waiters))));
      ghost var grants := Grants(limits, expected, Queue(waiters));
      GrantsAreQueued(limits, expected, waiters);
      GrantSlots(ids, grants, now, expiry);
      ArmExpiryTimer(now);
    }

    method Refuse(why: M.Refusal)
      modifies this`outcomes, this`nextId
      ensures View() == M.Refuse(old(View()), why)
    {
      outcomes, nextId := outcomes[nextId := M.Refused(why)], nextId + 1;
    }

    method Enqueue(workload: string)
      modifies this`waiters, this`nextId, this`lastTicket
      ensures View() == M.Enqueued(old(View()), workload)
    {
      lastTicket := lastTicket + 1;
      waiters := waiters[nextId := Ticket(workload, lastTicket)];
      nextId := nextId + 1;
    }

    /** The rest of `acquire`, once the pass has run. */
    method QueueOrRefuse(promise: Id, waitMs: Option<int>, now: int)
      modifies this`waiters, this`deadlines, this`outcomes, this`expiryTimer
      ensures View() == M.QueueOrRefuse(limits, old(View()), promise, waitMs, now)
    {
      if promise !in waiters {
        return;
      }
      if limits.maxQueued.Some? && |waiters| > limits.maxQueued.value {
        Settle(promise, M.Refused(M.QueueFull));
        ArmExpiryTimer(now);
        return;
      }
      if waitMs.Some? {
        deadlines := deadlines[promise := now + M.Max(0, waitMs.value)];
      }
    }

    /** A request with a known workload joins the queue. */
    method Admit(workload: string, waitMs: Option<int>, now: int, expiry: int)
      requires Lists(names, limits.workloads.Keys) && M.TicketsBelow(View())
      requires M.TicketsBelow(M.Enqueued(View(), workload)) && KnownSlots(limits, slots)
      modifies this
      ensures View() == M.Admitted(limits, old(View()), workload, waitMs, now, expiry) && clock == old(clock)
    {
      var promise := nextId;
      Enqueue(workload);
      Schedule(now, expiry);
      QueueOrRefuse(promise, waitMs, now);
    }

    /** `acquire`, for any state a pass can start from. */
    method Ask(workload: Option<string>, aborted: bool, timeoutMs: Option<int>, now: int, expiry: int)
      requires Lists(names, limits.workloads.Keys) && M.Core(limits, View())
      modifies this
      ensures View() == M.AfterAcquire(limits, old(View()), workload, aborted, timeoutMs, now, expiry)
      ensures clock == old(clock)
    {
      var target := ResolveWorkload(limits, workload);
      if target.Err? {
        Refuse(M.BadWorkload);
        return;
      }
      if aborted {
        Refuse(M.Aborted);
        return;
      }
      M.EnqueueKeepsCore(limits, View(), target.value.0);
      Admit(target.value.0, MinDefined(timeoutMs, target.value.1.maxWaitMs), now, expiry);
    }

    /** `acquire`: the promise is identified by the id the waiter gets. */
    method Acquire(workload: Option<string>, aborted: bool, timeoutMs: Option<int>, now: int, expiry: int)
      returns (promise: Id)
      requires Valid() && clock <= now && expiry == now + leaseTtlMs
      modifies this
      ensures Valid() && clock == now && promise == old(nextId)
      ensures View() == M.After(limits, old(View()), M.Acquire(workload, aborted, timeoutMs), now, expiry)
    {
      M.AcquireKeepsInv(limits, View(), clock, workload, aborted, timeoutMs, now, expiry);
      clock := now;
      promise := nextId;
      Ask(workload, aborted, timeoutMs, now, expiry);
    }

    /** `onAbort` of one waiter. */
    method Abort(waiter: Id, now: int, ghost expiry: int)
      requires Valid() && clock <= now
      modifies this
      ensures Valid() && clock == now
      ensures View() == M.After(limits, old(View()), M.Abort(waiter), now, expiry)
    {
      M.GivingUpKeepsInv(limits, View(), clock, waiter, M.Aborted, now);
      clock := now;
      if waiter in waiters {
        Settle(waiter, M.Refused(M.Aborted));
        ArmExpiryTimer(now);
      }
    }

    /** The wait-limit timer of one waiter. */
    method WaitTimeout(waiter: Id, now: int, ghost expiry: int)
      requires Valid() && clock <= now
      modifies this
      ensures Valid() && clock == now
      ensures View() == M.After(limits, old(View()), M.WaitTimeout(waiter), now, expiry)
    {
      M.GivingUpKeepsInv(limits, View(), clock, waiter, M.TimedOut, now);
      clock := now;
      if waiter !in waiters {
        return;
      }
      Settle(waiter, M.Refused(M.TimedOut));
      ArmExpiryTimer(now);
    }

    /** The expiry timer. */
    method TimerFires(now: int, expiry: int)
      requires Valid() && clock <= now && expiry == now + leaseTtlMs
      modifies this
      ensures Valid() && clock == now
      ensures View() == M.After(limits, old(View()), M.TimerFires, now, expiry)
    {
      M.TimerKeepsInv(limits, View(), now, expiry);
      clock := now;
      expiryTimer := None;
      Schedule(now, expiry);
    }

    /** `read` is the clock when the renewed lease is made out. */
    method Renew(lease: Id, now: int, expiry: int, read: int) returns (renewed: Option<int>)
      requires Valid() && clock <= now <= read && expiry == now + leaseTtlMs
      modifies this
      ensures Valid() && clock == now
      ensures View() == M.After(limits, old(View()), M.Renew(lease), now, expiry)
      ensures renewed.Some? <==> lease in old(slots) && old(slots[lease].expiresAt) > now
      ensures renewed.Some? ==> renewed.value == M.LeaseTtl(slots[lease], read)
    {
      M.RenewKeepsInv(limits, View(), lease, now, expiry);
      clock := now;
      if lease !in slots || slots[lease].expiresAt <= now {
        Schedule(now, expiry);
        return None;
      }
      slots := slots[lease := Slot(slots[lease].workload, expiry)];
      ArmExpiryTimer(now);
      return Some(M.LeaseTtl(slots[lease], read));
    }

    method Release(lease: Id, now: int, expiry: int)
      requires Valid() && clock <= now && expiry == now + leaseTtlMs
      modifies this
      ensures Valid() && clock == now
      ensures View() == M.After(limits, old(View()), M.Release(lease), now, expiry)
    {
      M.ReleaseKeepsInv(limits, View(), lease, now, expiry);
      FewerSlotsStayBounded(limits, slots, {lease});
      clock := now;
      slots := slots - {lease};
      Schedule(now, expiry);
    }
  }
}
