/**
 End to end: the in-memory limiter together with the permits that hold its leases.
 The limiter takes its steps, permits send renewals and receive the answers later,
 and releases arrive whenever they arrive. A fresh lease is handed over at once, and
 both sides read the same clock; the clock may move on while an event runs.
 */
module LeaseSafety {
  import opened Prelude
  import opened Policy
  import opened PolicyTheorems
  import opened Allocator
  import Sums
  import C = Controller
  import M = MemoryLimiter

  /** `requests` by the id of the lease they got; `answers` are renewal answers on their way. */
  datatype Joint = Joint(m: M.Mem, clock: int, requests: map<Id, C.Request>, answers: map<Id, C.Lease>)

  datatype Step =
    | Limiter(event: M.Event, now: int, expiry: int, taken: set<Id>, end: int)   // `taken` become permits
    | LimiterRenews(id: Id, now: int, expiry: int, end: int)
    | PermitActs(id: Id, what: C.Happening, now: int)

  predicate IsLive(q: C.Request) {
    q.phase.Holding? && q.phase.permit.life.Live?
  }

  function LocalExpiry(q: C.Request): real
    requires q.phase.Holding?
  {
    q.phase.permit.localExpiry
  }

  /** The lease for a slot as the limiter issues it at `now`. */
  function LeaseFor(slots: map<Id, Slot>, id: Id, now: int): C.Lease
    requires id in slots
  {
    C.Lease(id, M.LeaseTtl(slots[id], now) as real, None)
  }

  /** The permit of a new slot: the lease is made out, and handed over, at `read`. */
  function Fresh(slots: map<Id, Slot>, id: Id, read: int): C.Request
    requires id in slots
  {
    var lease := LeaseFor(slots, id, read);
    C.Request(C.Holding(C.NewPermit(lease, read as real)), Some(C.Good(lease)), [C.WaitStarted, C.Acquired], [])
  }

  /** Each new lease is made out before its slot expires, and before the event is over. */
  ghost predicate MadeOutInTime(lags: seq<nat>, taken: set<Id>, now: int, expiry: int, end: int) {
    forall id :: id in taken ==> M.ReadAt(lags, id, now) < expiry && M.ReadAt(lags, id, now) <= end
  }

  ghost predicate Enabled(limits: Limits, ttl: int, j: Joint, step: Step) {
    && M.TicketsBelow(j.m)
    && match step
       case Limiter(e, now, expiry, taken, end) =>
         && j.clock <= now <= end && expiry == now + ttl
         && MadeOutInTime(j.m.lags, taken, now, expiry, end)
         && M.Enabled(j.m, e, now)
         && (e.Release? ==> !(e.slot in j.requests && IsLive(j.requests[e.slot])))
         && taken <= M.After(limits, j.m, e, now, expiry).slots.Keys - j.m.slots.Keys
       case LimiterRenews(id, now, expiry, end) =>
         && j.clock <= now <= end < expiry && expiry == now + ttl
         && id in j.requests && j.requests[id].phase.Holding? && j.requests[id].phase.permit.wake.InFlight?
       case PermitActs(id, h, now) =>
         && j.clock <= now
         && id in j.requests && j.requests[id].phase.Holding?
         && C.Possible(j.requests[id], h) && C.TimeOf(h, now as real) == now as real
         && (h.RenewAnswer? && h.answer.Some? && h.answer.value.Good? ==>
               id in j.answers && h.answer.value.lease == j.answers[id])
  }

  function WithFresh(requests: map<Id, C.Request>, slots: map<Id, Slot>, taken: set<Id>, lags: seq<nat>,
                     now: int): map<Id, C.Request>
    requires taken <= slots.Keys
  {
    map id | id in requests.Keys + taken ::
      if id in taken then Fresh(slots, id, M.ReadAt(lags, id, now)) else requests[id]
  }

  ghost function Next(limits: Limits, ttl: int, j: Joint, step: Step): Joint
    requires Enabled(limits, ttl, j, step)
  {
    match step
    case Limiter(e, now, expiry, taken, end) =>
      var n := M.After(limits, j.m, e, now, expiry);
      Joint(n, end, WithFresh(j.requests, n.slots, taken, j.m.lags, now), j.answers)
    case LimiterRenews(id, now, expiry, end) =>
      var n := M.After(limits, j.m, M.Renew(id), now, expiry);
      var renewed := id in j.m.slots && j.m.slots[id].expiresAt > now && id in n.slots;
      Joint(n, end, j.requests, if renewed then j.answers[id := LeaseFor(n.slots, id, end)] else j.answers - {id})
    case PermitActs(id, h, now) =>
      Joint(j.m, now, j.requests[id := C.After(j.requests[id], h)], j.answers - {id})
  }

  /** Until `until` the slot is held, or that time has passed. */
  predicate Covered(slots: map<Id, Slot>, clock: int, id: Id, until: real) {
    until <= clock as real || (id in slots && until <= slots[id].expiresAt as real)
  }

  ghost predicate PermitsCovered(j: Joint) {
    forall id :: id in j.requests && IsLive(j.requests[id]) ==>
      Covered(j.m.slots, j.clock, id, LocalExpiry(j.requests[id]))
  }

  predicate AnswerFits(q: C.Request, slots: map<Id, Slot>, clock: int, id: Id, lease: C.Lease) {
    IsLive(q) && q.phase.permit.wake.InFlight? ==>
      lease.renewAfterMs.None? && Covered(slots, clock, id, q.phase.permit.wake.sentAt + lease.ttlMs)
  }

  ghost predicate AnswersCovered(j: Joint) {
    forall id :: id in j.answers ==>
      id in j.requests && AnswerFits(j.requests[id], j.m.slots, j.clock, id, j.answers[id])
  }

  predicate SentInThePast(q: C.Request, clock: int) {
    q.phase.Holding? && q.phase.permit.wake.InFlight? ==> q.phase.permit.wake.sentAt <= clock as real
  }

  ghost predicate SendsCovered(j: Joint) {
    forall id :: id in j.requests ==> SentInThePast(j.requests[id], j.clock)
  }

  ghost predicate SlotsFit(ttl: int, j: Joint) {
    M.SlotIdsBelow(j.m) && M.ExpireBy(j.m.slots, j.clock + ttl)
  }

  ghost predicate Inv(limits: Limits, ttl: int, j: Joint) {
    M.Inv(limits, j.m, j.clock) && SlotsFit(ttl, j) && PermitsCovered(j) && AnswersCovered(j) && SendsCovered(j)
  }

  // ----- steps -----

  /** A slot that covers a permit still does after any event but its release. */
  lemma StaysCovered(limits: Limits, m: M.Mem, clock: int, e: M.Event, now: int, expiry: int, id: Id, until: real)
    requires M.TicketsBelow(m) && M.SlotIdsBelow(m) && M.ExpireBy(m.slots, expiry)
    requires clock <= now && e != M.Event.Release(id) && Covered(m.slots, clock, id, until)
    ensures Covered(M.After(limits, m, e, now, expiry).slots, now, id, until)
  {
    if id in m.slots && now < m.slots[id].expiresAt {
      M.EventKeepsSlot(limits, m, e, now, expiry, id);
    }
  }

  lemma EventKeepsSlotsFit(limits: Limits, ttl: int, m: M.Mem, clock: int, e: M.Event, now: int, expiry: int)
    requires M.TicketsBelow(m) && M.SlotIdsBelow(m) && M.ExpireBy(m.slots, clock + ttl) && clock <= now
    requires expiry == now + ttl
    ensures M.ExpireBy(m.slots, expiry)
    ensures M.ExpireBy(M.After(limits, m, e, now, expiry).slots, expiry)
  {
    M.EventKeepsHorizon(limits, m, e, now, expiry);
  }

  lemma FreshIsCovered(slots: map<Id, Slot>, clock: int, id: Id, read: int, expiry: int)
    requires id in slots && slots[id].expiresAt == expiry && read < expiry
    ensures Covered(slots, clock, id, LocalExpiry(Fresh(slots, id, read)))
  {
  }

  /** Nothing is lost while the clock moves on. */
  lemma TimePasses(j: Joint, end: int)
    requires PermitsCovered(j) && AnswersCovered(j) && SendsCovered(j) && j.clock <= end
    ensures var n := j.(clock := end); PermitsCovered(n) && AnswersCovered(n) && SendsCovered(n)
  {
    var n := j.(clock := end);
    forall id | id in j.answers
      ensures id in n.requests && AnswerFits(n.requests[id], n.m.slots, end, id, n.answers[id])
    {
      assert AnswerFits(j.requests[id], j.m.slots, j.clock, id, j.answers[id]);
    }
    forall id | id in n.requests ensures SentInThePast(n.requests[id], end) {
      assert SentInThePast(j.requests[id], j.clock);
    }
  }

  /** Everything that was covered still is after a limiter event that releases no live permit's slot. */
  lemma LimiterKeepsCover(limits: Limits, ttl: int, j: Joint, e: M.Event, now: int, expiry: int)
    requires M.TicketsBelow(j.m) && SlotsFit(ttl, j) && PermitsCovered(j) && AnswersCovered(j) && SendsCovered(j)
    requires j.clock <= now && expiry == now + ttl
    requires e.Release? ==> !(e.slot in j.requests && IsLive(j.requests[e.slot]))
    ensures var n := Joint(M.After(limits, j.m, e, now, expiry), now, j.requests, j.answers);
            PermitsCovered(n) && AnswersCovered(n) && SendsCovered(n)
  {
    var n := Joint(M.After(limits, j.m, e, now, expiry), now, j.requests, j.answers);
    EventKeepsSlotsFit(limits, ttl, j.m, j.clock, e, now, expiry);
    forall id | id in j.requests && IsLive(j.requests[id])
      ensures Covered(n.m.slots, now, id, LocalExpiry(j.requests[id]))
    {
      StaysCovered(limits, j.m, j.clock, e, now, expiry, id, LocalExpiry(j.requests[id]));
    }
    forall id | id in j.answers
      ensures id in j.requests && AnswerFits(j.requests[id], n.m.slots, now, id, j.answers[id])
    {
      assert AnswerFits(j.requests[id], j.m.slots, j.clock, id, j.answers[id]);
      if IsLive(j.requests[id]) && j.requests[id].phase.permit.wake.InFlight? {
        StaysCovered(limits, j.m, j.clock, e, now, expiry, id,
                     j.requests[id].phase.permit.wake.sentAt + j.answers[id].ttlMs);
      }
    }
    forall id | id in j.requests ensures SentInThePast(j.requests[id], now) {
      assert SentInThePast(j.requests[id], j.clock);
    }
  }

  /** New leases become permits that are covered from the start. */
  lemma TakingKeepsCover(j: Joint, taken: set<Id>, lags: seq<nat>, now: int, expiry: int)
    requires taken <= j.m.slots.Keys && MadeOutInTime(lags, taken, now, expiry, j.clock)
    requires forall id :: id in taken ==> j.m.slots[id].expiresAt == expiry
    requires PermitsCovered(j) && AnswersCovered(j) && SendsCovered(j)
    ensures var n := j.(requests := WithFresh(j.requests, j.m.slots, taken, lags, now));
            PermitsCovered(n) && AnswersCovered(n) && SendsCovered(n)
  {
    var n := j.(requests := WithFresh(j.requests, j.m.slots, taken, lags, now));
    forall id | id in n.requests && IsLive(n.requests[id])
      ensures Covered(n.m.slots, n.clock, id, LocalExpiry(n.requests[id]))
    {
      if id in taken {
        FreshIsCovered(j.m.slots, j.clock, id, M.ReadAt(lags, id, now), expiry);
      }
    }
    forall id | id in n.answers
      ensures id in n.requests && AnswerFits(n.requests[id], n.m.slots, n.clock, id, n.answers[id])
    {
      assert AnswerFits(j.requests[id], j.m.slots, j.clock, id, j.answers[id]);
    }
    forall id | id in n.requests ensures SentInThePast(n.requests[id], n.clock) {
      assert id in j.requests ==> SentInThePast(j.requests[id], j.clock);
    }
  }

  /** The limiter's part of a step, up to the moment the event is over. */
  lemma EventKeepsJointInv(limits: Limits, ttl: int, j: Joint, e: M.Event, now: int, expiry: int, end: int)
    requires Inv(limits, ttl, j) && j.clock <= now <= end && expiry == now + ttl
    requires e.Release? ==> !(e.slot in j.requests && IsLive(j.requests[e.slot]))
    ensures Inv(limits, ttl, Joint(M.After(limits, j.m, e, now, expiry), end, j.requests, j.answers))
  {
    var n := M.After(limits, j.m, e, now, expiry);
    M.EventKeepsInv(limits, j.m, j.clock, e, now, expiry);
    InvLater(limits, n, now, end);
    EventKeepsSlotsFit(limits, ttl, j.m, j.clock, e, now, expiry);
    LimiterKeepsCover(limits, ttl, j, e, now, expiry);
    TimePasses(Joint(n, now, j.requests, j.answers), end);
  }

  lemma InvLater(limits: Limits, m: M.Mem, now: int, end: int)
    requires M.Inv(limits, m, now) && now <= end
    ensures M.Inv(limits, m, end)
  {
  }

  lemma LimiterStep(limits: Limits, ttl: int, j: Joint, e: M.Event, now: int, expiry: int, taken: set<Id>, end: int)
    requires Inv(limits, ttl, j) && Enabled(limits, ttl, j, Limiter(e, now, expiry, taken, end))
    ensures Inv(limits, ttl, Next(limits, ttl, j, Limiter(e, now, expiry, taken, end)))
  {
    EventKeepsJointInv(limits, ttl, j, e, now, expiry, end);
    M.EventGrantsFullLeases(limits, j.m, e, now, expiry);
    var n := M.After(limits, j.m, e, now, expiry);
    TakingKeepsCover(Joint(n, end, j.requests, j.answers), taken, j.m.lags, now, expiry);
  }

  lemma RenewStep(limits: Limits, ttl: int, j: Joint, id: Id, now: int, expiry: int, end: int)
    requires Inv(limits, ttl, j) && Enabled(limits, ttl, j, LimiterRenews(id, now, expiry, end))
    ensures Inv(limits, ttl, Next(limits, ttl, j, LimiterRenews(id, now, expiry, end)))
  {
    EventKeepsJointInv(limits, ttl, j, M.Renew(id), now, expiry, end);
    if id in j.m.slots && j.m.slots[id].expiresAt > now {
      RenewedSlot(limits, j.m, id, now, expiry);
      var n := M.After(limits, j.m, M.Renew(id), now, expiry);
      AnsweringKeepsCover(Joint(n, end, j.requests, j.answers), id, expiry);
    }
  }

  lemma RenewedSlot(limits: Limits, m: M.Mem, id: Id, now: int, expiry: int)
    requires M.TicketsBelow(m) && id in m.slots && m.slots[id].expiresAt > now
    ensures var n := M.After(limits, m, M.Renew(id), now, expiry);
            id in n.slots && n.slots[id].expiresAt == expiry
  {
  }

  lemma AnsweringKeepsCover(j: Joint, id: Id, expiry: int)
    requires id in j.m.slots && j.m.slots[id].expiresAt == expiry && expiry >= j.clock + 1 && id in j.requests
    requires AnswersCovered(j) && SendsCovered(j)
    ensures AnswersCovered(j.(answers := j.answers[id := LeaseFor(j.m.slots, id, j.clock)]))
  {
    var n := j.(answers := j.answers[id := LeaseFor(j.m.slots, id, j.clock)]);
    assert SentInThePast(j.requests[id], j.clock);
    forall i | i in n.answers
      ensures i in n.requests && AnswerFits(n.requests[i], n.m.slots, n.clock, i, n.answers[i])
    {
      if i != id {
        assert AnswerFits(j.requests[i], j.m.slots, j.clock, i, j.answers[i]);
      }
    }
  }

  /** What one permit does to its own local expiry. */
  lemma PermitStaysCovered(q: C.Request, slots: map<Id, Slot>, clock: int, id: Id, h: C.Happening, now: int)
    requires q.phase.Holding? && C.Possible(q, h) && clock <= now && C.TimeOf(h, now as real) == now as real
    requires IsLive(q) ==> Covered(slots, clock, id, LocalExpiry(q))
    requires SentInThePast(q, clock)
    requires h.RenewAnswer? && h.answer.Some? && h.answer.value.Good? ==>
             AnswerFits(q, slots, clock, id, h.answer.value.lease)
    ensures var n := C.After(q, h);
            && (IsLive(n) ==> Covered(slots, now, id, LocalExpiry(n)))
            && SentInThePast(n, now)
  {
  }

  lemma PermitStep(limits: Limits, ttl: int, j: Joint, id: Id, h: C.Happening, now: int)
    requires Inv(limits, ttl, j) && Enabled(limits, ttl, j, PermitActs(id, h, now))
    ensures Inv(limits, ttl, Next(limits, ttl, j, PermitActs(id, h, now)))
  {
    var n := Next(limits, ttl, j, PermitActs(id, h, now));
    PermitKeepsCover(j, id, h, now);
  }

  lemma PermitKeepsCover(j: Joint, id: Id, h: C.Happening, now: int)
    requires PermitsCovered(j) && AnswersCovered(j) && SendsCovered(j) && j.clock <= now
    requires id in j.requests && j.requests[id].phase.Holding?
    requires C.Possible(j.requests[id], h) && C.TimeOf(h, now as real) == now as real
    requires h.RenewAnswer? && h.answer.Some? && h.answer.value.Good? ==>
             id in j.answers && h.answer.value.lease == j.answers[id]
    ensures var n := Joint(j.m, now, j.requests[id := C.After(j.requests[id], h)], j.answers - {id});
            PermitsCovered(n) && AnswersCovered(n) && SendsCovered(n)
  {
    var n := Joint(j.m, now, j.requests[id := C.After(j.requests[id], h)], j.answers - {id});
    assert id in j.answers ==> AnswerFits(j.requests[id], j.m.slots, j.clock, id, j.answers[id]);
    assert SentInThePast(j.requests[id], j.clock);
    PermitStaysCovered(j.requests[id], j.m.slots, j.clock, id, h, now);
    forall i | i in n.requests && i != id ensures SentInThePast(n.requests[i], now) {
      assert SentInThePast(j.requests[i], j.clock);
    }
    forall i | i in n.answers ensures i in n.requests && AnswerFits(n.requests[i], n.m.slots, now, i, n.answers[i]) {
      assert AnswerFits(j.requests[i], j.m.slots, j.clock, i, j.answers[i]);
    }
  }

  lemma StepKeepsInv(limits: Limits, ttl: int, j: Joint, step: Step)
    requires Inv(limits, ttl, j) && Enabled(limits, ttl, j, step)
    ensures Inv(limits, ttl, Next(limits, ttl, j, step))
  {
    match step
    case Limiter(e, now, expiry, taken, end) => LimiterStep(limits, ttl, j, e, now, expiry, taken, end);
    case LimiterRenews(id, now, expiry, end) => RenewStep(limits, ttl, j, id, now, expiry, end);
    case PermitActs(id, h, now) => PermitStep(limits, ttl, j, id, h, now);
  }

  // ----- runs -----

  ghost predicate Run(limits: Limits, ttl: int, j: Joint, steps: seq<Step>, end: Joint)
    decreases steps
  {
    if steps == [] then end == j
    else Enabled(limits, ttl, j, steps[0]) && Run(limits, ttl, Next(limits, ttl, j, steps[0]), steps[1..], end)
  }

  lemma {:induction false} RunKeepsInv(limits: Limits, ttl: int, j: Joint, steps: seq<Step>, end: Joint)
    requires Inv(limits, ttl, j) && Run(limits, ttl, j, steps, end)
    ensures Inv(limits, ttl, end)
    decreases steps
  {
    if steps != [] {
      StepKeepsInv(limits, ttl, j, steps[0]);
      RunKeepsInv(limits, ttl, Next(limits, ttl, j, steps[0]), steps[1..], end);
    }
  }

  /** The permits that are unreleased and, by their own clock, still hold their lease. */
  ghost function LocallyValid(j: Joint): set<Id> {
    set id | id in j.requests && IsLive(j.requests[id]) && LocalExpiry(j.requests[id]) > j.clock as real
  }

  /**
   Through lease expiry: in every reachable state each unreleased permit that believes
   its lease is still valid has a slot of its own in the limiter that has not expired
   and lasts at least as long; so there are never more of them than the limit allows.
   */
  lemma LocallyValidPermitsHoldSlots(limits: Limits, ttl: int, lags: seq<nat>, clock: int, steps: seq<Step>, end: Joint)
    requires Bounded(limits, map[])
    requires Run(limits, ttl, Joint(M.Empty(lags), clock, map[], map[]), steps, end)
    ensures forall id :: id in LocallyValid(end) ==>
              id in end.m.slots && LocalExpiry(end.requests[id]) <= end.m.slots[id].expiresAt as real
              && end.m.slots[id].expiresAt > end.clock
    ensures |LocallyValid(end)| <= limits.maxConcurrent
  {
    M.EmptyIsSound(limits, lags, clock);
    RunKeepsInv(limits, ttl, Joint(M.Empty(lags), clock, map[], map[]), steps, end);
    forall id | id in LocallyValid(end)
      ensures id in end.m.slots && LocalExpiry(end.requests[id]) <= end.m.slots[id].expiresAt as real
    {
      assert Covered(end.m.slots, end.clock, id, LocalExpiry(end.requests[id]));
    }
    SubsetSize(LocallyValid(end), end.m.slots.Keys);
    TotalIsSlots(limits, end.m.slots);
    Sums.SumNonNegative(Shortfalls(limits, ActiveOf(limits, end.m.slots)));
  }

  /** A lease made out at `read` ends, for its holder, when the slot does: not later, and not earlier. */
  predicate EndsWithSlot(slot: Slot, read: int) {
    read + M.LeaseTtl(slot, read) == slot.expiresAt
  }

  /**
   `toLease` reads the clock again after the pass, and never states less than one
   millisecond. With a second reading at most `lag` later, a lease made out by then ends
   with its slot for every reading exactly when `lag` is less than the lease time; that is
   the condition MadeOutInTime puts on the runs above.
   */
  lemma LeaseIsConservativeWhenMadeOutInTime(slot: Slot, now: int, ttl: int, lag: int)
    requires slot.expiresAt == now + ttl && ttl >= 1 && lag >= 0
    ensures (forall read :: now <= read <= now + lag ==> EndsWithSlot(slot, read))
       <==> lag < ttl
  {
    var read := now + lag;
    if lag >= ttl {
      assert !EndsWithSlot(slot, read);
    }
  }
}
