/**
 What callers of the in-memory limiter can rely on, in terms of clock readings, counts and
 settings: when a slot is freed, when the timer fires, what a lease says, and why a
 request is refused.
 */
module LimiterAnswers {
  import opened Prelude
  import opened Policy
  import opened PolicyTheorems
  import opened Allocator
  import opened M = MemoryLimiter

  // ----- expired slots are freed -----

  lemma {:induction false} GrantsLast(m: Mem, grants: seq<Waiter>, now: int, expiry: int)
    requires now < expiry && forall id :: id in m.slots ==> m.slots[id].expiresAt > now
    ensures forall id :: id in GrantEach(m, grants, now, expiry).slots ==>
              GrantEach(m, grants, now, expiry).slots[id].expiresAt > now
    decreases grants
  {
    if grants != [] {
      GrantsLast(GrantOne(m, grants[0], now, expiry), grants[1..], now, expiry);
    }
  }

  lemma PassFreesExpired(limits: Limits, m: Mem, now: int, expiry: int)
    requires TicketsBelow(m) && now < expiry
    ensures forall id :: id in Schedule(limits, m, now, expiry).slots ==>
              Schedule(limits, m, now, expiry).slots[id].expiresAt > now
  {
    var p := Purged(m, now);
    GrantsLast(p, Grants(limits, ActiveOf(limits, p.slots), Queue(p.waiters)), now, expiry);
  }

  /** An admitted `acquire`, the expiry timer, a release, and a renewal that comes too late. */
  predicate RunsAPass(limits: Limits, m: Mem, e: Event, now: int) {
    match e
    case Acquire(workload, aborted, _) =>
      var name := if workload.Some? then workload else limits.defaultWorkload;
      !aborted && name.Some? && name.value in limits.workloads
    case TimerFires => true
    case Release(_) => true
    case Renew(slot) => slot !in m.slots || m.slots[slot].expiresAt <= now
    case _ => false
  }

  /** Whatever held a slot, it is free again after the first pass at or after its expiry. */
  lemma ExpiredSlotsAreFreed(limits: Limits, m: Mem, e: Event, now: int, expiry: int)
    requires TicketsBelow(m) && now < expiry && RunsAPass(limits, m, e, now)
    ensures forall id :: id in After(limits, m, e, now, expiry).slots ==>
              After(limits, m, e, now, expiry).slots[id].expiresAt > now
  {
    match e
    case Acquire(workload, aborted, timeoutMs) =>
      AdmittedFreesExpired(limits, m, workload, aborted, timeoutMs, now, expiry);
    case TimerFires => PassFreesExpired(limits, m.(timer := None), now, expiry);
    case Release(slot) => PassFreesExpired(limits, m.(slots := m.slots - {slot}), now, expiry);
    case Renew(_) => PassFreesExpired(limits, m, now, expiry);
    case _ =>
  }

  lemma AdmittedFreesExpired(limits: Limits, m: Mem, workload: Option<string>, aborted: bool, timeoutMs: Option<int>,
                             now: int, expiry: int)
    requires TicketsBelow(m) && now < expiry && RunsAPass(limits, m, Acquire(workload, aborted, timeoutMs), now)
    ensures forall id :: id in AfterAcquire(limits, m, workload, aborted, timeoutMs, now, expiry).slots ==>
              AfterAcquire(limits, m, workload, aborted, timeoutMs, now, expiry).slots[id].expiresAt > now
  {
    var name := if workload.Some? then workload.value else limits.defaultWorkload.value;
    var waitMs := MinDefined(timeoutMs, limits.workloads[name].maxWaitMs);
    PassFreesExpired(limits, Enqueued(m, name), now, expiry);
    QueueOrRefuseKeepsOthers(limits, Schedule(limits, Enqueued(m, name), now, expiry), m.nextId, waitMs, now);
  }

  /**
   No request is left waiting behind slots whose leases have run out: after a pass nobody
   who waits could be admitted even if only the slots that are still valid counted.
   */
  lemma NobodyWaitsForTheDead(limits: Limits, m: Mem, clock: int, e: Event, now: int, expiry: int, id: Id)
    requires clock <= now < expiry && M.Inv(limits, m, clock) && RunsAPass(limits, m, e, now)
    requires id in After(limits, m, e, now, expiry).waiters
    ensures var n := After(limits, m, e, now, expiry);
            var valid := n.slots - set s | s in n.slots && n.slots[s].expiresAt <= now;
            !Admissible(limits, ActiveOf(limits, valid), n.waiters[id].workload)
  {
    ExpiredSlotsAreFreed(limits, m, e, now, expiry);
    EventKeepsInv(limits, m, clock, e, now, expiry);
    OnlyValidSlots(limits, After(limits, m, e, now, expiry), now, id);
  }

  lemma OnlyValidSlots(limits: Limits, n: Mem, now: int, id: Id)
    requires forall s :: s in n.slots ==> n.slots[s].expiresAt > now
    requires NobodyWaitsInVain(limits, Abs(n)) && id in n.waiters
    ensures var valid := n.slots - set s | s in n.slots && n.slots[s].expiresAt <= now;
            !Admissible(limits, ActiveOf(limits, valid), n.waiters[id].workload)
  {
    assert n.slots - (set s | s in n.slots && n.slots[s].expiresAt <= now) == n.slots;
    assert id in Abs(n).waiting;
  }

  // ----- the timer is not early either -----

  /** The timer is set exactly while somebody waits and something is held, and not before the first expiry. */
  ghost predicate TimerNotEarly(m: Mem) {
    && (m.timer.Some? <==> m.waiters != map[] && m.slots != map[])
    && (m.timer.Some? ==> exists id :: id in m.slots && m.slots[id].expiresAt <= m.timer.value)
  }

  lemma ArmedIsNotEarly(m: Mem, now: int)
    ensures TimerNotEarly(Armed(m, now))
  {
    if m.waiters != map[] && m.slots != map[] {
      var id :| id in m.slots && m.slots[id].expiresAt == Earliest(m.slots);
      assert id in Armed(m, now).slots;
    }
  }

  lemma QueueOrRefuseKeepsTimer(limits: Limits, n: Mem, id: Id, waitMs: Option<int>, now: int)
    requires TimerNotEarly(n)
    ensures TimerNotEarly(QueueOrRefuse(limits, n, id, waitMs, now))
  {
    ArmedIsNotEarly(Settled(n, id, Refused(QueueFull)), now);
    if id in n.waiters && waitMs.Some? {
      SameTimer(n, n.(deadlines := n.deadlines[id := now + Max(0, waitMs.value)]));
    }
  }

  lemma AdmittedKeepsTimer(limits: Limits, m: Mem, workload: string, waitMs: Option<int>, now: int, expiry: int)
    requires TicketsBelow(m)
    ensures TimerNotEarly(Admitted(limits, m, workload, waitMs, now, expiry))
  {
    ArmedIsNotEarly(Granted(limits, Enqueued(m, workload), now, expiry), now);
    QueueOrRefuseKeepsTimer(limits, Schedule(limits, Enqueued(m, workload), now, expiry), m.nextId, waitMs, now);
  }

  lemma AcquireKeepsTimer(limits: Limits, m: Mem, workload: Option<string>, aborted: bool, timeoutMs: Option<int>,
                          now: int, expiry: int)
    requires TicketsBelow(m) && TimerNotEarly(m)
    ensures TimerNotEarly(AfterAcquire(limits, m, workload, aborted, timeoutMs, now, expiry))
  {
    var target := LimiterSettings.ResolveWorkload(limits, workload);
    if target.Ok? && !aborted {
      AdmittedKeepsTimer(limits, m, target.value.0, MinDefined(timeoutMs, target.value.1.maxWaitMs), now, expiry);
    } else {
      SameTimer(m, Refuse(m, if target.Err? then BadWorkload else Aborted));
    }
  }

  lemma SameTimer(m: Mem, n: Mem)
    requires TimerNotEarly(m) && n.timer == m.timer && n.waiters == m.waiters && n.slots == m.slots
    ensures TimerNotEarly(n)
  {
  }

  lemma EventKeepsTimerNotEarly(limits: Limits, m: Mem, e: Event, now: int, expiry: int)
    requires TicketsBelow(m) && TimerNotEarly(m)
    ensures TimerNotEarly(After(limits, m, e, now, expiry))
  {
    match e
    case Acquire(workload, aborted, timeoutMs) =>
      AcquireKeepsTimer(limits, m, workload, aborted, timeoutMs, now, expiry);
    case Abort(id) => ArmedIsNotEarly(Settled(m, id, Refused(Aborted)), now);
    case WaitTimeout(id) => ArmedIsNotEarly(Settled(m, id, Refused(TimedOut)), now);
    case TimerFires => ArmedIsNotEarly(Granted(limits, m.(timer := None), now, expiry), now);
    case Renew(slot) =>
      ArmedIsNotEarly(Granted(limits, m, now, expiry), now);
      if slot in m.slots {
        ArmedIsNotEarly(Extended(m, slot, expiry), now);
      }
    case Release(slot) => ArmedIsNotEarly(Granted(limits, m.(slots := m.slots - {slot}), now, expiry), now);
  }

  /** When the timer fires there is a slot to free, and it is freed. */
  lemma FiringFreesASlot(limits: Limits, m: Mem, now: int, expiry: int)
    requires TicketsBelow(m) && TimerNotEarly(m) && m.timer.Some? && m.timer.value <= now < expiry
    requires SlotIdsBelow(m)
    ensures var n := After(limits, m, TimerFires, now, expiry);
            exists id :: id in m.slots && m.slots[id].expiresAt <= now && id !in n.slots
  {
    var id :| id in m.slots && m.slots[id].expiresAt <= m.timer.value;
    var p := Purged(m.(timer := None), now);
    GrantEachAddsAbove(p, Grants(limits, ActiveOf(limits, p.slots), Queue(p.waiters)), now, expiry);
    assert id !in After(limits, m, TimerFires, now, expiry).slots;
  }

  // ----- what a lease says, and why a request is refused -----

  /**
   A lease for the workload, whose slot lasts until `expiry` and whose TTL is what is left of it
   when it is made out.
   */
  predicate IsLease(lags: seq<nat>, slots: map<Id, Slot>, outcome: Outcome, workload: string, now: int, expiry: int) {
    && outcome.Leased? && outcome.workload == workload
    && outcome.slot in slots && slots[outcome.slot] == Slot(workload, expiry)
    && var read := if outcome.slot < |lags| then now + lags[outcome.slot] else now;
       outcome.ttlMs == if expiry - read >= 1 then expiry - read else 1
  }

  ghost predicate ProperLease(m: Mem, n: Mem, p: Id, now: int, expiry: int)
    requires p in n.outcomes
  {
    p in m.waiters && IsLease(m.lags, n.slots, n.outcomes[p], m.waiters[p].workload, now, expiry)
  }

  ghost predicate OnlyLeases(m: Mem, n: Mem, now: int, expiry: int) {
    forall p :: p in n.outcomes && p !in m.outcomes ==> ProperLease(m, n, p, now, expiry)
  }

  lemma {:induction false} GrantsAreLeases(m: Mem, grants: seq<Waiter>, now: int, expiry: int)
    requires SlotIdsBelow(m) && NoDuplicates(Ids(grants)) && m.waiters.Keys !! m.outcomes.Keys
    requires forall x :: x in grants ==> x.id in m.waiters && m.waiters[x.id].workload == x.workload
    ensures OnlyLeases(m, GrantEach(m, grants, now, expiry), now, expiry)
    decreases grants
  {
    if grants != [] {
      var next := GrantOne(m, grants[0], now, expiry);
      var n := GrantEach(next, grants[1..], now, expiry);
      IdsTail(grants);
      GrantsAreLeases(next, grants[1..], now, expiry);
      GrantEachExpiry(next, grants[1..], now, expiry);
      GrantsSettleOthers(next, grants[1..], now, expiry, grants[0].id);
      assert next.outcomes[grants[0].id].slot == m.nextId;
      forall p | p in n.outcomes && p !in m.outcomes ensures ProperLease(m, n, p, now, expiry) {
        if p != grants[0].id {
          assert ProperLease(next, n, p, now, expiry);
        }
      }
    }
  }

  lemma {:induction false} GrantsSettleOthers(m: Mem, grants: seq<Waiter>, now: int, expiry: int, p: Id)
    requires p in m.outcomes && forall x :: x in grants ==> x.id != p
    ensures var n := GrantEach(m, grants, now, expiry); p in n.outcomes && n.outcomes[p] == m.outcomes[p]
    decreases grants
  {
    if grants != [] {
      assert grants[0] in grants;
      GrantsSettleOthers(GrantOne(m, grants[0], now, expiry), grants[1..], now, expiry, p);
    }
  }

  lemma PassGivesLeases(limits: Limits, m: Mem, now: int, expiry: int)
    requires TicketsBelow(m) && SlotIdsBelow(m) && m.waiters.Keys !! m.outcomes.Keys
    ensures OnlyLeases(m, Schedule(limits, m, now, expiry), now, expiry)
  {
    var p := Purged(m, now);
    var grants := Grants(limits, ActiveOf(limits, p.slots), Queue(p.waiters));
    GrantsAreQueued(limits, ActiveOf(limits, p.slots), p.waiters);
    GrantsAreLeases(p, grants, now, expiry);
    var n := Schedule(limits, m, now, expiry);
    forall id | id in n.outcomes && id !in m.outcomes ensures ProperLease(m, n, id, now, expiry) {
      assert ProperLease(p, GrantEach(p, grants, now, expiry), id, now, expiry);
    }
  }

  /** The workload an `acquire` is for. */
  function NameFor(limits: Limits, workload: Option<string>): Option<string> {
    if workload.Some? then workload else limits.defaultWorkload
  }

  /** A promise settled by the event was settled for the reason it was given. */
  ghost predicate Justified(limits: Limits, m: Mem, e: Event, n: Mem, now: int, expiry: int, p: Id)
    requires p in n.outcomes
  {
    match n.outcomes[p]
    case Leased(_, workload, _) =>
      if e.Acquire? && p == m.nextId
      then NameFor(limits, e.workload) == Some(workload) &&
        IsLease(m.lags, n.slots, n.outcomes[p], workload, now, expiry)
      else ProperLease(m, n, p, now, expiry)
    case Refused(why) =>
      match why
      case BadWorkload =>
        e.Acquire? && p == m.nextId
        && (NameFor(limits, e.workload).None? || NameFor(limits, e.workload).value !in limits.workloads)
      case Aborted => e == Abort(p) || (e.Acquire? && p == m.nextId && e.aborted)
      case TimedOut => e == WaitTimeout(p)
      case QueueFull => e.Acquire? && p == m.nextId && limits.maxQueued.Some? && |n.waiters| >= limits.maxQueued.value
  }

  ghost predicate AllJustified(limits: Limits, m: Mem, e: Event, n: Mem, now: int, expiry: int) {
    forall p :: p in n.outcomes && p !in m.outcomes ==> Justified(limits, m, e, n, now, expiry, p)
  }

  lemma PassIsJustified(limits: Limits, m: Mem, e: Event, was: Mem, now: int, expiry: int)
    requires !e.Acquire? && TicketsBelow(was) && SlotIdsBelow(was) && was.waiters.Keys !! was.outcomes.Keys
    requires was.waiters == m.waiters && was.outcomes == m.outcomes && was.lags == m.lags
    ensures AllJustified(limits, m, e, Schedule(limits, was, now, expiry), now, expiry)
  {
    PassGivesLeases(limits, was, now, expiry);
    var n := Schedule(limits, was, now, expiry);
    forall p | p in n.outcomes && p !in m.outcomes ensures Justified(limits, m, e, n, now, expiry, p) {
      assert ProperLease(was, n, p, now, expiry);
    }
  }

  lemma AdmittedIsJustified(limits: Limits, m: Mem, e: Event, workload: string, waitMs: Option<int>, now: int,
                            expiry: int)
    requires TicketsBelow(m) && SlotIdsBelow(m) && Bookkeeping(m)
    requires e.Acquire? && NameFor(limits, e.workload) == Some(workload)
    ensures AllJustified(limits, m, e, Admitted(limits, m, workload, waitMs, now, expiry), now, expiry)
  {
    var q := Enqueued(m, workload);
    var s := Schedule(limits, q, now, expiry);
    var n := Admitted(limits, m, workload, waitMs, now, expiry);
    EnqueuedBookkeeping(m, workload);
    PassGivesLeases(limits, q, now, expiry);
    FullOrKept(limits, s, m.nextId, waitMs, now);
    forall p | p in n.outcomes && p !in m.outcomes ensures Justified(limits, m, e, n, now, expiry, p) {
      if p in s.outcomes {
        assert ProperLease(q, s, p, now, expiry);
      }
    }
  }

  lemma AcquireIsJustified(limits: Limits, m: Mem, e: Event, now: int, expiry: int)
    requires TicketsBelow(m) && SlotIdsBelow(m) && Bookkeeping(m) && e.Acquire?
    ensures AllJustified(limits, m, e, AfterAcquire(limits, m, e.workload, e.aborted, e.timeoutMs, now, expiry), now,
                         expiry)
  {
    var target := LimiterSettings.ResolveWorkload(limits, e.workload);
    if target.Ok? && !e.aborted {
      AdmittedIsJustified(limits, m, e, target.value.0, MinDefined(e.timeoutMs, target.value.1.maxWaitMs), now, expiry);
    }
  }

  /** After the pass the request keeps its outcome, waits, or finds the queue full. */
  lemma FullOrKept(limits: Limits, s: Mem, id: Id, waitMs: Option<int>, now: int)
    ensures var n := QueueOrRefuse(limits, s, id, waitMs, now);
            && n.slots == s.slots
            && (forall p :: p in n.outcomes ==>
                  (p in s.outcomes && n.outcomes[p] == s.outcomes[p]) ||
                  (p == id && id in s.waiters && n.outcomes[p] == Refused(QueueFull)
                   && limits.maxQueued.Some? && |n.waiters| >= limits.maxQueued.value))
  {
    if id in s.waiters {
      assert (s.waiters - {id})[id := s.waiters[id]] == s.waiters;
      assert |(s.waiters - {id}).Keys| == |s.waiters.Keys| - 1 by {
        assert s.waiters.Keys == (s.waiters - {id}).Keys + {id};
      }
    }
  }

  lemma GivingUpIsJustified(limits: Limits, m: Mem, e: Event, id: Id, why: Refusal, now: int, expiry: int)
    requires (e == Abort(id) && why == Aborted) || (e == WaitTimeout(id) && why == TimedOut)
    ensures AllJustified(limits, m, e, AfterGivingUp(m, id, why, now), now, expiry)
  {
    var n := AfterGivingUp(m, id, why, now);
    forall p | p in n.outcomes && p !in m.outcomes ensures Justified(limits, m, e, n, now, expiry, p) {
      assert p == id && n.outcomes[p] == Refused(why);
    }
  }

  lemma RenewIsJustified(limits: Limits, m: Mem, slot: Id, now: int, expiry: int)
    requires TicketsBelow(m) && SlotIdsBelow(m) && Bookkeeping(m)
    ensures AllJustified(limits, m, Event.Renew(slot), AfterRenew(limits, m, slot, now, expiry), now, expiry)
  {
    PassIsJustified(limits, m, Event.Renew(slot), m, now, expiry);
  }

  /**
   Every promise that an event settles has its reason: a lease is for the workload of the
   request, with a slot of its own for one lease time and the TTL that is left; a refusal
   is an abort of this request, its wait limit, an unknown workload, or a queue in which
   `maxQueued` others still wait.
   */
  lemma EventSettlesWithCause(limits: Limits, m: Mem, e: Event, now: int, expiry: int)
    requires TicketsBelow(m) && SlotIdsBelow(m) && Bookkeeping(m)
    ensures AllJustified(limits, m, e, After(limits, m, e, now, expiry), now, expiry)
  {
    var n := After(limits, m, e, now, expiry);
    match e
    case Acquire(workload, aborted, timeoutMs) =>
      assert n == AfterAcquire(limits, m, workload, aborted, timeoutMs, now, expiry);
      AcquireIsJustified(limits, m, e, now, expiry);
    case Abort(id) =>
      assert n == AfterGivingUp(m, id, Aborted, now);
      GivingUpIsJustified(limits, m, e, id, Aborted, now, expiry);
    case WaitTimeout(id) =>
      assert n == AfterGivingUp(m, id, TimedOut, now);
      GivingUpIsJustified(limits, m, e, id, TimedOut, now, expiry);
    case TimerFires =>
      assert n == Schedule(limits, m.(timer := None), now, expiry);
      PassIsJustified(limits, m, e, m.(timer := None), now, expiry);
    case Renew(slot) =>
      assert n == AfterRenew(limits, m, slot, now, expiry);
      RenewIsJustified(limits, m, slot, now, expiry);
    case Release(slot) =>
      assert n == Schedule(limits, m.(slots := m.slots - {slot}), now, expiry);
      PassIsJustified(limits, m, e, m.(slots := m.slots - {slot}), now, expiry);
  }

  /** A request that stops waiting by itself is told so, at once; and one that is refused at the door is not queued. */
  lemma RefusalsTakeEffect(limits: Limits, m: Mem, e: Event, now: int, expiry: int)
    requires TicketsBelow(m)
    ensures var n := After(limits, m, e, now, expiry);
            && (e.Abort? && e.waiter in m.waiters ==>
                  e.waiter !in n.waiters && e.waiter in n.outcomes && n.outcomes[e.waiter] == Refused(Aborted))
            && (e.WaitTimeout? && e.waiter in m.waiters ==>
                  e.waiter !in n.waiters && e.waiter in n.outcomes && n.outcomes[e.waiter] == Refused(TimedOut))
            && (e.Acquire?
                && (NameFor(limits, e.workload).None? || NameFor(limits, e.workload).value !in limits.workloads) ==>
                  n.waiters == m.waiters && n.slots == m.slots
                  && m.nextId in n.outcomes && n.outcomes[m.nextId] == Refused(BadWorkload))
            && (e.Acquire? && e.aborted ==> n.waiters == m.waiters && n.slots == m.slots)
  {
  }

  // ----- wait limits -----

  /**
   When the request gives up waiting: by both its own limit and its workload's, at one of them, at
   once if it is not positive.
   */
  predicate IsLimit(deadline: Option<int>, now: int, timeoutMs: Option<int>, maxWaitMs: Option<int>) {
    && (deadline.None? <==> timeoutMs.None? && maxWaitMs.None?)
    && (deadline.Some? ==>
          && (Reached(deadline.value, now, timeoutMs) || Reached(deadline.value, now, maxWaitMs))
          && (timeoutMs.Some? ==> deadline.value <= now || deadline.value <= now + timeoutMs.value)
          && (maxWaitMs.Some? ==> deadline.value <= now || deadline.value <= now + maxWaitMs.value))
  }

  predicate Reached(deadline: int, now: int, limitMs: Option<int>) {
    limitMs.Some? && if limitMs.value <= 0 then deadline == now else deadline == now + limitMs.value
  }

  function DeadlineOf(m: Mem, p: Id): Option<int> {
    if p in m.deadlines then Some(m.deadlines[p]) else None
  }

  ghost predicate KeepsDeadlines(m: Mem, n: Mem) {
    forall p :: p in n.waiters && p in m.waiters ==> DeadlineOf(n, p) == DeadlineOf(m, p)
  }

  lemma {:induction false} GrantsKeepDeadlines(m: Mem, grants: seq<Waiter>, now: int, expiry: int)
    ensures KeepsDeadlines(m, GrantEach(m, grants, now, expiry))
    ensures GrantEach(m, grants, now, expiry).waiters.Keys <= m.waiters.Keys
    decreases grants
  {
    if grants != [] {
      GrantsKeepDeadlines(GrantOne(m, grants[0], now, expiry), grants[1..], now, expiry);
    }
  }

  lemma PassKeepsDeadlines(limits: Limits, m: Mem, now: int, expiry: int)
    requires TicketsBelow(m)
    ensures KeepsDeadlines(m, Schedule(limits, m, now, expiry))
  {
    var p := Purged(m, now);
    var grants := Grants(limits, ActiveOf(limits, p.slots), Queue(p.waiters));
    GrantsKeepDeadlines(p, grants, now, expiry);
    var n := Schedule(limits, m, now, expiry);
    forall id | id in n.waiters && id in m.waiters ensures DeadlineOf(n, id) == DeadlineOf(m, id) {
      assert DeadlineOf(GrantEach(p, grants, now, expiry), id) == DeadlineOf(p, id);
    }
  }

  /** The wait limit of a new request, and those of the others. */
  lemma QueueOrRefuseSetsLimit(limits: Limits, s: Mem, id: Id, timeoutMs: Option<int>, maxWaitMs: Option<int>, now: int)
    ensures var n := QueueOrRefuse(limits, s, id, MinDefined(timeoutMs, maxWaitMs), now);
            && (forall p :: p in n.waiters && p != id ==> p in s.waiters && DeadlineOf(n, p) == DeadlineOf(s, p))
            && (id in n.waiters && id !in s.deadlines ==> IsLimit(DeadlineOf(n, id), now, timeoutMs, maxWaitMs))
  {
  }

  lemma EnqueuedHasNoLimit(limits: Limits, m: Mem, workload: string, now: int, expiry: int)
    requires TicketsBelow(m) && Bookkeeping(m) && SlotIdsBelow(m)
    ensures TicketsBelow(Enqueued(m, workload))
    ensures KeepsDeadlines(m, Schedule(limits, Enqueued(m, workload), now, expiry))
    ensures m.nextId !in Schedule(limits, Enqueued(m, workload), now, expiry).deadlines
  {
    var q := Enqueued(m, workload);
    var s := Schedule(limits, q, now, expiry);
    EnqueuedBookkeeping(m, workload);
    PassKeepsDeadlines(limits, q, now, expiry);
    ScheduleKeepsBookkeeping(limits, q, now, expiry);
    assert m.nextId in s.waiters ==> DeadlineOf(s, m.nextId) == DeadlineOf(q, m.nextId);
    forall p | p in s.waiters && p in m.waiters ensures DeadlineOf(s, p) == DeadlineOf(m, p) {
      assert DeadlineOf(q, p) == DeadlineOf(m, p);
    }
  }

  lemma AdmittedSetsLimit(limits: Limits, m: Mem, workload: string, timeoutMs: Option<int>, maxWaitMs: Option<int>,
                          now: int, expiry: int)
    requires TicketsBelow(m) && Bookkeeping(m) && SlotIdsBelow(m)
    ensures var n := Admitted(limits, m, workload, MinDefined(timeoutMs, maxWaitMs), now, expiry);
            && KeepsDeadlines(m, n)
            && (m.nextId in n.waiters ==> IsLimit(DeadlineOf(n, m.nextId), now, timeoutMs, maxWaitMs))
  {
    EnqueuedHasNoLimit(limits, m, workload, now, expiry);
    var s := Schedule(limits, Enqueued(m, workload), now, expiry);
    QueueOrRefuseSetsLimit(limits, s, m.nextId, timeoutMs, maxWaitMs, now);
  }

  lemma AcquireSetsLimit(limits: Limits, m: Mem, e: Event, now: int, expiry: int)
    requires TicketsBelow(m) && Bookkeeping(m) && SlotIdsBelow(m) && e.Acquire?
    ensures var n := AfterAcquire(limits, m, e.workload, e.aborted, e.timeoutMs, now, expiry);
            && KeepsDeadlines(m, n)
            && (m.nextId in n.waiters ==>
                  var name := NameFor(limits, e.workload);
                  name.Some? && name.value in limits.workloads
                  && IsLimit(DeadlineOf(n, m.nextId), now, e.timeoutMs, limits.workloads[name.value].maxWaitMs))
  {
    var target := LimiterSettings.ResolveWorkload(limits, e.workload);
    if target.Ok? && !e.aborted {
      AdmittedSetsLimit(limits, m, target.value.0, e.timeoutMs, target.value.1.maxWaitMs, now, expiry);
    }
  }

  /** An event sets the wait limit of the request it queues, and changes no other. */
  lemma EventSetsLimits(limits: Limits, m: Mem, e: Event, now: int, expiry: int)
    requires TicketsBelow(m) && Bookkeeping(m) && SlotIdsBelow(m)
    ensures var n := After(limits, m, e, now, expiry);
            && KeepsDeadlines(m, n)
            && (e.Acquire? && m.nextId in n.waiters ==>
                  var name := NameFor(limits, e.workload);
                  name.Some? && name.value in limits.workloads
                  && IsLimit(DeadlineOf(n, m.nextId), now, e.timeoutMs, limits.workloads[name.value].maxWaitMs))
  {
    var n := After(limits, m, e, now, expiry);
    match e
    case Acquire(workload, aborted, timeoutMs) =>
      assert n == AfterAcquire(limits, m, workload, aborted, timeoutMs, now, expiry);
      AcquireSetsLimit(limits, m, e, now, expiry);
    case Abort(id) => assert n == AfterGivingUp(m, id, Aborted, now);
    case WaitTimeout(id) => assert n == AfterGivingUp(m, id, TimedOut, now);
    case TimerFires =>
      assert n == Schedule(limits, m.(timer := None), now, expiry);
      PassKeepsDeadlines(limits, m.(timer := None), now, expiry);
    case Renew(slot) =>
      assert n == AfterRenew(limits, m, slot, now, expiry);
      PassKeepsDeadlines(limits, m, now, expiry);
    case Release(slot) =>
      assert n == Schedule(limits, m.(slots := m.slots - {slot}), now, expiry);
      PassKeepsDeadlines(limits, m.(slots := m.slots - {slot}), now, expiry);
  }

  /**
   From the moment a request waits, in every run: it is told that it timed out only once
   its wait limit has passed, and never if it has none.
   */
  lemma {:induction false} TimesOutOnlyAfterItsLimit(limits: Limits, ttl: int, m: Mem, clock: int, events: seq<Timed>,
                                                     end: Mem, endClock: int, p: Id)
    requires M.Inv(limits, m, clock) && Bookkeeping(m) && IsRun(limits, ttl, m, clock, events, end, endClock)
    requires p in m.waiters
    ensures clock <= endClock
    ensures p in end.outcomes && end.outcomes[p] == Refused(TimedOut) ==>
              DeadlineOf(m, p).Some? && DeadlineOf(m, p).value <= endClock
    decreases events
  {
    if events != [] {
      var t := events[0];
      var n := After(limits, m, t.event, t.now, t.expiry);
      EventKeepsInv(limits, m, clock, t.event, t.now, t.expiry);
      EventKeepsBookkeeping(limits, m, t.event, t.now, t.expiry);
      EventSettlesWithCause(limits, m, t.event, t.now, t.expiry);
      EventSetsLimits(limits, m, t.event, t.now, t.expiry);
      EventGrows(limits, m, t.event, t.now, t.expiry);
      if p in n.waiters {
        TimesOutOnlyAfterItsLimit(limits, ttl, n, t.now, events[1..], end, endClock, p);
      } else {
        SettledForGood(limits, ttl, n, t.now, events[1..], end, endClock, p);
        assert Justified(limits, m, t.event, n, t.now, t.expiry, p);
      }
    }
  }

  lemma {:induction false} SettledForGood(limits: Limits, ttl: int, m: Mem, clock: int, events: seq<Timed>,
                                          end: Mem, endClock: int, p: Id)
    requires M.Inv(limits, m, clock) && Bookkeeping(m) && IsRun(limits, ttl, m, clock, events, end, endClock)
    requires p in m.outcomes
    ensures clock <= endClock && p in end.outcomes && end.outcomes[p] == m.outcomes[p]
    decreases events
  {
    if events != [] {
      var t := events[0];
      EventKeepsInv(limits, m, clock, t.event, t.now, t.expiry);
      EventKeepsBookkeeping(limits, m, t.event, t.now, t.expiry);
      EventGrows(limits, m, t.event, t.now, t.expiry);
      SettledForGood(limits, ttl, After(limits, m, t.event, t.now, t.expiry), t.now, events[1..], end, endClock, p);
    }
  }
}
