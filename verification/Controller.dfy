/**
 The slot lifecycle of one run (concurrency-controller.ts). A request is a value that
 moves through the phases of `admit` and then of its permit; the events of the
 outside world (grants, aborts, deadlines, renewal answers, releases, timers) reach it
 in any order. Module PermitClass performs the permit's part in place.
 */
module Controller {
  import opened Prelude

  type LeaseId = nat
  type RequestId = nat

  datatype Lease = Lease(id: LeaseId, ttlMs: real, renewAfterMs: Option<real>)

  /**
   What a limiter's promise may resolve to: a valid lease, an invalid one with a string id, another
   value, or undefined.
   */
  datatype Handed = Good(lease: Lease) | Named(id: LeaseId) | Nameless | Missing

  datatype Outcome = Completed | Failed | Cancelled | LostLease

  datatype Ev =
    | WaitStarted | TimedOut | WaitCancelled | QueueFull | ConfigProblem | LimiterProblem
    | Acquired | RenewalFailed | LeaseLost | ReleaseFailed | Released(outcome: Outcome)

  datatype Failure = Timeout | FullQueue | BadConfig | LimiterFailed | LostSlot

  datatype Rejection = TimeoutError | QueueFullError | ConfigError | OtherError

  /** The pending wake-up of a permit: the renewal timer, or a renewal that is aborted at the local expiry. */
  datatype Wake = Idle | Timer(due: real) | InFlight(sentAt: real)

  datatype Life = Live | Releasing(outcome: Outcome) | Done

  datatype Permit = Permit(current: Lease, localExpiry: real, wake: Wake, life: Life, revoked: bool)

  datatype Phase =
    | Waiting                   // the acquire call runs and `admit` waits for it
    | Resolved                  // it resolved; the continuation of `admit` has not run yet
    | Abandoned                 // `admit` gave up; the acquire call still runs
    | GivingBack                // `admit` returns the lease before it throws
    | LateReturn                // a grant that came after `admit` gave up is being returned
    | Refused                   // nothing left to do
    | Holding(permit: Permit)

  /** `handed` is what the limiter handed over; `calls` are the release calls made; `events` what was emitted. */
  datatype Request = Request(phase: Phase, handed: Option<Handed>, events: seq<Ev>, calls: seq<Option<LeaseId>>)

  function Ref(handed: Handed): Option<LeaseId> {
    match handed
    case Good(lease) => Some(lease.id)
    case Named(id) => Some(id)
    case _ => None
  }

  /** `classify`: the deadline wins over a cancellation, which wins over the error itself. */
  function Classify(why: Rejection, deadline: bool, cancelled: bool): (Ev, Option<Failure>) {
    if deadline || why.TimeoutError? then (TimedOut, Some(Timeout))
    else if cancelled then (WaitCancelled, None)
    else match why
      case QueueFullError => (QueueFull, Some(FullQueue))
      case ConfigError => (ConfigProblem, Some(BadConfig))
      case _ => (LimiterProblem, Some(LimiterFailed))
  }

  // ----- the permit -----

  function RenewDelay(lease: Lease): real {
    var d := if lease.renewAfterMs.Some? then lease.renewAfterMs.value else lease.ttlMs / 2.0;
    if d < 0.0 then 0.0 else d
  }

  function RetryDelay(left: real): real {
    if left / 2.0 < 1000.0 then left / 2.0 else 1000.0
  }

  /** `createPermit`. */
  function NewPermit(lease: Lease, now: real): Permit {
    Permit(lease, now + lease.ttlMs, Timer(now + RenewDelay(lease)), Live, false)
  }

  function WithPermit(q: Request, p: Permit): Request {
    q.(phase := Holding(p))
  }

  function Emit(q: Request, ev: Ev): Request {
    q.(events := q.events + [ev])
  }

  /** `release`. */
  function AfterRelease(q: Request, outcome: Outcome): Request
    requires q.phase.Holding?
  {
    var p := q.phase.permit;
    if !p.life.Live? then q
    else WithPermit(q, p.(life := Releasing(outcome), wake := if p.wake.Timer? then Idle else p.wake))
         .(calls := q.calls + [Some(p.current.id)])
  }

  /** `lose`; the failure it records is the caller's business. */
  function AfterLoss(q: Request): Request
    requires q.phase.Holding?
  {
    if !q.phase.permit.life.Live? then q
    else AfterRelease(Emit(WithPermit(q, q.phase.permit.(revoked := true)), LeaseLost), LostLease)
  }

  /** The renewal timer. */
  function AfterTimer(q: Request, now: real): Request
    requires q.phase.Holding?
  {
    var p := q.phase.permit;
    if !p.life.Live? then WithPermit(q, p.(wake := Idle))
    else if p.localExpiry - now <= 0.0 then AfterLoss(WithPermit(q, p.(wake := Idle)))
    else WithPermit(q, p.(wake := InFlight(now)))
  }

  /** The catch block of `renew`. */
  function AfterRenewFailure(q: Request, now: real): Request
    requires q.phase.Holding?
  {
    var p := q.phase.permit;
    var idle := WithPermit(q, p.(wake := Idle));
    if !p.life.Live? then idle
    else if p.localExpiry - now <= 0.0 then AfterLoss(Emit(idle, RenewalFailed))
    else Emit(WithPermit(q, p.(wake := Timer(now + RetryDelay(p.localExpiry - now)))), RenewalFailed)
  }

  /** The answer to a renewal: None when the limiter says that the lease is gone. */
  function AfterAnswer(q: Request, answer: Option<Handed>, now: real): Request
    requires q.phase.Holding? && q.phase.permit.wake.InFlight?
  {
    var p := q.phase.permit;
    var idle := WithPermit(q, p.(wake := Idle));
    if !p.life.Live? then idle
    else if answer.None? then AfterLoss(idle)
    else if !answer.value.Good? || answer.value.lease.id != p.current.id then AfterRenewFailure(q, now)
    else
      var next := answer.value.lease;
      WithPermit(q, p.(current := next, localExpiry := p.wake.sentAt + next.ttlMs,
                       wake := Timer(now + RenewDelay(next))))
  }

  /** `limiter.release` answered, failed, or ran out of time. */
  function AfterSettling(q: Request, ok: bool): Request
    requires q.phase.Holding? && q.phase.permit.life.Releasing?
  {
    var told := if ok then q else Emit(q, ReleaseFailed);
    Emit(WithPermit(told, q.phase.permit.(life := Done)), Released(q.phase.permit.life.outcome))
  }

  // ----- admission -----

  const ASKED := Request(Waiting, None, [WaitStarted], [])

  /** The world outside one request. */
  datatype Happening =
    | Abort(deadline: bool, cancelled: bool)               // the acquire signal fires
    | Grant(handed: Handed)                                // the acquire call resolves
    | Reject(why: Rejection, deadline: bool, cancelled: bool)
    | Resume(aborted: bool, deadline: bool, cancelled: bool, now: real)  // `admit` continues after its await
    | ReturnSettles(ok: bool, deadline: bool, cancelled: bool)
    | TimerFires(now: real)
    | RenewAnswer(answer: Option<Handed>, now: real)
    | RenewFails(now: real)                                // rejected, or aborted at the local expiry
    | Release(outcome: Outcome)
    | ReleaseSettles(ok: bool)

  predicate Possible(q: Request, h: Happening) {
    match h
    case Abort(_, _) => q.phase.Waiting?
    case Grant(_) => q.phase.Waiting? || q.phase.Abandoned?
    case Reject(_, _, _) => q.phase.Waiting? || q.phase.Abandoned?
    case Resume(_, _, _, _) => q.phase.Resolved?
    case ReturnSettles(_, _, _) => q.phase.GivingBack? || q.phase.LateReturn?
    case TimerFires(now) => q.phase.Holding? && q.phase.permit.wake.Timer? && q.phase.permit.wake.due <= now
    case RenewAnswer(_, _) => q.phase.Holding? && q.phase.permit.wake.InFlight?
    case RenewFails(_) => q.phase.Holding? && q.phase.permit.wake.InFlight?
    case Release(_) => q.phase.Holding?
    case ReleaseSettles(_) => q.phase.Holding? && q.phase.permit.life.Releasing?
  }

  function GiveBack(q: Request, phase: Phase): Request
    requires q.handed.Some?
  {
    q.(phase := phase, calls := q.calls + [Ref(q.handed.value)])
  }

  /** The continuation of `admit` once it has something from the limiter. */
  function AfterResume(q: Request, aborted: bool, deadline: bool, cancelled: bool, now: real): Request
    requires q.handed.Some?
  {
    if aborted then GiveBack(q, GivingBack)
    else match q.handed.value
      case Good(lease) => Emit(WithPermit(q, NewPermit(lease, now)), Acquired)
      case Named(_) => GiveBack(q, GivingBack)
      case _ => Emit(q.(phase := Refused), Classify(OtherError, deadline, cancelled).0)
  }

  function After(q: Request, h: Happening): Request
    requires Possible(q, h) && (q.phase.Resolved? ==> q.handed.Some?)
  {
    match h
    case Abort(deadline, cancelled) => Emit(q.(phase := Abandoned), Classify(OtherError, deadline, cancelled).0)
    case Grant(handed) =>
      var n := q.(handed := Some(handed));
      if q.phase.Waiting? then n.(phase := Resolved)
      else if handed.Missing? then n.(phase := Refused) else GiveBack(n, LateReturn)
    case Reject(why, deadline, cancelled) =>
      if q.phase.Waiting? then Emit(q.(phase := Refused), Classify(why, deadline, cancelled).0)
      else q.(phase := Refused)
    case Resume(aborted, deadline, cancelled, now) => AfterResume(q, aborted, deadline, cancelled, now)
    case ReturnSettles(ok, deadline, cancelled) =>
      var told := if ok then q else Emit(q, ReleaseFailed);
      if q.phase.LateReturn? then told.(phase := Refused)
      else Emit(told.(phase := Refused), Classify(OtherError, deadline, cancelled).0)
    case TimerFires(now) => AfterTimer(q, now)
    case RenewAnswer(answer, now) => AfterAnswer(q, answer, now)
    case RenewFails(now) => AfterRenewFailure(q, now)
    case Release(outcome) => AfterRelease(q, outcome)
    case ReleaseSettles(ok) => AfterSettling(q, ok)
  }

  // ----- the invariant of a request -----

  predicate IsVerdict(ev: Ev) {
    ev.TimedOut? || ev.WaitCancelled? || ev.QueueFull? || ev.ConfigProblem? || ev.LimiterProblem?
  }

  ghost function Count(events: seq<Ev>, which: Ev -> bool): nat {
    if events == [] then 0 else Count(events[..|events| - 1], which) + (if which(events[|events| - 1]) then 1 else 0)
  }

  predicate IsReleased(ev: Ev) {
    ev.Released?
  }

  predicate IsAcquired(ev: Ev) {
    ev.Acquired?
  }

  /** How many verdicts, acquisitions and releases have been announced. */
  ghost predicate Announced(q: Request, verdicts: nat, acquired: nat, released: nat) {
    && Count(q.events, IsVerdict) == verdicts
    && Count(q.events, IsAcquired) == acquired
    && Count(q.events, IsReleased) == released
  }

  lemma EmitCounts(q: Request, ev: Ev, which: Ev -> bool)
    ensures Count(Emit(q, ev).events, which) == Count(q.events, which) + (if which(ev) then 1 else 0)
  {
    assert Emit(q, ev).events[..|q.events|] == q.events;
  }

  ghost predicate Inv(q: Request) {
    match q.phase
    case Waiting => q.handed.None? && q.calls == [] && Announced(q, 0, 0, 0)
    case Resolved => q.handed.Some? && q.calls == [] && Announced(q, 0, 0, 0)
    case Abandoned => q.handed.None? && q.calls == [] && Announced(q, 1, 0, 0)
    case GivingBack => q.handed.Some? && q.calls == [Ref(q.handed.value)] && Announced(q, 0, 0, 0)
    case LateReturn => q.handed.Some? && q.calls == [Ref(q.handed.value)] && Announced(q, 1, 0, 0)
    case Refused =>
      && Announced(q, 1, 0, 0)
      && (q.handed.None? ==> q.calls == [])
      && (q.handed.Some? ==> q.calls == [Ref(q.handed.value)] || (q.calls == [] && Ref(q.handed.value).None?))
    case Holding(p) =>
      && q.handed.Some? && q.handed.value.Good? && q.handed.value.lease.id == p.current.id
      && (p.life.Live? ==> q.calls == [] && !p.revoked && !p.wake.Idle?)
      && (!p.life.Live? ==> q.calls == [Some(p.current.id)] && !p.wake.Timer?)
      && Announced(q, 0, 1, if p.life.Done? then 1 else 0)
      && (p.life.Done? ==> q.events[|q.events| - 1].Released?)
  }

  lemma EmitAnnounces(q: Request, ev: Ev, v: nat, a: nat, r: nat)
    requires Announced(q, v, a, r)
    ensures Announced(Emit(q, ev), v + (if IsVerdict(ev) then 1 else 0), a + (if ev.Acquired? then 1 else 0),
                      r + (if ev.Released? then 1 else 0))
  {
    EmitCounts(q, ev, IsVerdict);
    EmitCounts(q, ev, IsAcquired);
    EmitCounts(q, ev, IsReleased);
  }

  lemma LossKeepsInv(q: Request)
    requires Announced(q, 0, 1, 0) && q.calls == []
    requires q.phase.Holding? && q.phase.permit.life.Live? && !q.phase.permit.wake.Timer?
    requires q.handed.Some? && q.handed.value.Good? && q.handed.value.lease.id == q.phase.permit.current.id
    ensures Inv(AfterLoss(q))
  {
    EmitAnnounces(q, LeaseLost, 0, 1, 0);
    assert AfterLoss(q).events == Emit(q, LeaseLost).events;
  }

  lemma RenewFailureKeepsInv(q: Request, now: real)
    requires Inv(q) && q.phase.Holding? && q.phase.permit.wake.InFlight?
    ensures Inv(AfterRenewFailure(q, now))
  {
    var p := q.phase.permit;
    if p.life.Live? {
      EmitAnnounces(q, RenewalFailed, 0, 1, 0);
      if p.localExpiry - now <= 0.0 {
        LossKeepsInv(Emit(WithPermit(q, p.(wake := Idle)), RenewalFailed));
      }
    }
  }

  lemma TimerKeepsInv(q: Request, now: real)
    requires Inv(q) && Possible(q, TimerFires(now))
    ensures Inv(AfterTimer(q, now))
  {
    var p := q.phase.permit;
    if p.life.Live? && p.localExpiry - now <= 0.0 {
      LossKeepsInv(WithPermit(q, p.(wake := Idle)));
    }
  }

  lemma AnswerKeepsInv(q: Request, answer: Option<Handed>, now: real)
    requires Inv(q) && Possible(q, RenewAnswer(answer, now))
    ensures Inv(AfterAnswer(q, answer, now))
  {
    var p := q.phase.permit;
    if p.life.Live? && answer.None? {
      LossKeepsInv(WithPermit(q, p.(wake := Idle)));
    } else if p.life.Live? {
      RenewFailureKeepsInv(q, now);
    }
  }

  lemma SettlingKeepsInv(q: Request, ok: bool)
    requires Inv(q) && Possible(q, ReleaseSettles(ok))
    ensures Inv(AfterSettling(q, ok))
  {
    var told := if ok then q else Emit(q, ReleaseFailed);
    EmitAnnounces(q, ReleaseFailed, 0, 1, 0);
    EmitAnnounces(told, Released(q.phase.permit.life.outcome), 0, 1, 0);
  }

  lemma PermitKeepsInv(q: Request, h: Happening)
    requires Inv(q) && Possible(q, h) && q.phase.Holding?
    ensures Inv(After(q, h))
  {
    match h
    case TimerFires(now) => TimerKeepsInv(q, now);
    case RenewAnswer(answer, now) => AnswerKeepsInv(q, answer, now);
    case RenewFails(now) => RenewFailureKeepsInv(q, now);
    case Release(outcome) =>
    case ReleaseSettles(ok) => SettlingKeepsInv(q, ok);
  }

  lemma ResumeKeepsInv(q: Request, aborted: bool, deadline: bool, cancelled: bool, now: real)
    requires Inv(q) && q.phase.Resolved?
    ensures Inv(AfterResume(q, aborted, deadline, cancelled, now))
  {
    if !aborted {
      match q.handed.value
      case Good(lease) => EmitAnnounces(q, Acquired, 0, 0, 0);
      case Named(_) =>
      case _ => EmitAnnounces(q, Classify(OtherError, deadline, cancelled).0, 0, 0, 0);
    }
  }

  lemma LateReturnKeepsInv(q: Request, ok: bool, deadline: bool, cancelled: bool)
    requires Inv(q) && q.phase.LateReturn?
    ensures Inv(After(q, ReturnSettles(ok, deadline, cancelled)))
  {
    EmitAnnounces(q, ReleaseFailed, 1, 0, 0);
  }

  lemma GivingBackKeepsInv(q: Request, ok: bool, deadline: bool, cancelled: bool)
    requires Inv(q) && q.phase.GivingBack?
    ensures Inv(After(q, ReturnSettles(ok, deadline, cancelled)))
  {
    var told := if ok then q else Emit(q, ReleaseFailed);
    EmitAnnounces(q, ReleaseFailed, 0, 0, 0);
    EmitAnnounces(told.(phase := Refused), Classify(OtherError, deadline, cancelled).0, 0, 0, 0);
  }

  lemma AdmissionKeepsInv(q: Request, h: Happening)
    requires Inv(q) && Possible(q, h) && !q.phase.Holding?
    ensures Inv(After(q, h))
  {
    match h
    case Abort(deadline, cancelled) => EmitAnnounces(q, Classify(OtherError, deadline, cancelled).0, 0, 0, 0);
    case Grant(_) =>
    case Reject(why, deadline, cancelled) =>
      if q.phase.Waiting? {
        EmitAnnounces(q, Classify(why, deadline, cancelled).0, 0, 0, 0);
      }
    case Resume(aborted, deadline, cancelled, now) => ResumeKeepsInv(q, aborted, deadline, cancelled, now);
    case ReturnSettles(ok, deadline, cancelled) =>
      if q.phase.LateReturn? {
        LateReturnKeepsInv(q, ok, deadline, cancelled);
      } else {
        GivingBackKeepsInv(q, ok, deadline, cancelled);
      }
  }

  lemma HappeningKeepsInv(q: Request, h: Happening)
    requires Inv(q) && Possible(q, h)
    ensures Inv(After(q, h))
  {
    if q.phase.Holding? {
      PermitKeepsInv(q, h);
    } else {
      AdmissionKeepsInv(q, h);
    }
  }

  // ----- every interleaving -----

  predicate Run(q: Request, hs: seq<Happening>, end: Request)
    decreases hs
  {
    if hs == [] then end == q
    else Possible(q, hs[0]) && (q.phase.Resolved? ==> q.handed.Some?) && Run(After(q, hs[0]), hs[1..], end)
  }

  lemma {:induction false} RunKeepsInv(q: Request, hs: seq<Happening>, end: Request)
    requires Inv(q) && Run(q, hs, end)
    ensures Inv(end)
    decreases hs
  {
    if hs != [] {
      HappeningKeepsInv(q, hs[0]);
      RunKeepsInv(After(q, hs[0]), hs[1..], end);
    }
  }

  /** The request still has the lease to itself: `admit` is about to take it, or a live permit holds it. */
  predicate Keeps(q: Request, id: LeaseId) {
    q.phase.Resolved? || (q.phase.Holding? && q.phase.permit.life.Live? && q.phase.permit.current.id == id)
  }

  /**
   Slot conservation, in every interleaving of grant, cancellation, deadline, renewal
   answer, loss and release: a valid lease that the limiter handed over is either still
   kept by this one request or has been returned with exactly one release call, never
   both and never neither; without a hand-over nothing is released.
   */
  lemma SlotConservation(hs: seq<Happening>, end: Request)
    requires Run(ASKED, hs, end)
    ensures end.handed.None? ==> end.calls == []
    ensures end.handed.Some? && end.handed.value.Good? ==>
              var id := end.handed.value.lease.id;
              if Keeps(end, id) then end.calls == [] else end.calls == [Some(id)]
  {
    RunKeepsInv(ASKED, hs, end);
  }

  /**
   Every request ends with exactly one verdict, or with one acquisition and one
   release. The release is announced once its call has settled, and last.
   */
  lemma OneEndPerRequest(hs: seq<Happening>, end: Request)
    requires Run(ASKED, hs, end)
    ensures end.phase.Holding? ==> Announced(end, 0, 1, if end.phase.permit.life.Done? then 1 else 0)
    ensures !end.phase.Holding? ==>
            Announced(end, Count(end.events, IsVerdict), 0, 0) && Count(end.events, IsVerdict) <= 1
    ensures end.phase.Refused? ==> Count(end.events, IsVerdict) == 1
    ensures end.phase.Holding? && end.phase.permit.life.Done? ==>
            end.events[|end.events| - 1].Released? && |end.calls| == 1
  {
    RunKeepsInv(ASKED, hs, end);
  }

  /** After `released` nothing is emitted, released or scheduled, whatever still arrives. */
  lemma {:induction false} NothingAfterReleased(q: Request, hs: seq<Happening>, end: Request)
    requires Inv(q) && q.phase.Holding? && q.phase.permit.life.Done? && Run(q, hs, end)
    ensures end.events == q.events && end.calls == q.calls
    ensures end.phase.Holding? && end.phase.permit.life.Done? && !end.phase.permit.wake.Timer?
    decreases hs
  {
    if hs != [] {
      HappeningKeepsInv(q, hs[0]);
      NothingAfterReleased(After(q, hs[0]), hs[1..], end);
    }
  }

  // ----- the renewal schedule -----

  /** A wake-up is pending that comes no later than the local expiry; a renewal in flight is aborted at the expiry. */
  predicate WakesByExpiry(p: Permit) {
    match p.wake
    case Idle => false
    case Timer(due) => due <= p.localExpiry
    case InFlight(sentAt) => sentAt <= p.localExpiry
  }

  /** Timers fire when due: nothing happens to the permit later than its pending wake-up. */
  predicate Prompt(p: Permit, now: real) {
    match p.wake
    case Idle => true
    case Timer(due) => now <= due
    case InFlight(sentAt) => sentAt <= now <= p.localExpiry
  }

  function TimeOf(h: Happening, default: real): real {
    match h
    case TimerFires(now) => now
    case RenewAnswer(_, now) => now
    case RenewFails(now) => now
    case _ => default
  }

  predicate InTime(q: Request) {
    q.phase.Holding? && q.phase.permit.life.Live? ==> WakesByExpiry(q.phase.permit)
  }

  /** A live permit accepts the answer to its renewal. */
  predicate Accepts(q: Request, h: Happening) {
    && q.phase.Holding? && q.phase.permit.life.Live? && q.phase.permit.wake.InFlight?
    && h.RenewAnswer? && h.answer.Some? && h.answer.value.Good? && h.answer.value.lease.id == q.phase.permit.current.id
  }

  /** `admit` turns a valid lease into a permit. */
  predicate Takes(q: Request, h: Happening) {
    q.phase.Resolved? && q.handed.Some? && q.handed.value.Good? && h.Resume? && !h.aborted
  }

  /**
   What a limiter must see to: the delay it asks for fits into the TTL of the lease, and
   for a renewal the time the answer took fits in beside it.
   */
  predicate Suits(q: Request, h: Happening) {
    && (Takes(q, h) ==> RenewDelay(q.handed.value.lease) <= q.handed.value.lease.ttlMs)
    && (Accepts(q, h) ==>
          (h.now - q.phase.permit.wake.sentAt) + RenewDelay(h.answer.value.lease) <= h.answer.value.lease.ttlMs)
  }

  predicate Ready(q: Request, h: Happening) {
    Possible(q, h) && (q.phase.Resolved? ==> q.handed.Some?)
  }

  /** One event leaves a live permit with a wake-up in time exactly when the lease it brings, if any, suits. */
  lemma StepInTimeExactlyWhenSuited(q: Request, h: Happening, now: real)
    requires Inv(q) && Ready(q, h) && InTime(q)
    requires q.phase.Holding? ==> Prompt(q.phase.permit, TimeOf(h, now))
    ensures InTime(After(q, h)) <==> Suits(q, h)
  {
  }

  /** A run in which every timer fires when due. */
  predicate PromptRun(q: Request, hs: seq<(Happening, real)>, end: Request)
    decreases hs
  {
    if hs == [] then end == q
    else
      && Ready(q, hs[0].0)
      && (q.phase.Holding? ==> Prompt(q.phase.permit, TimeOf(hs[0].0, hs[0].1)))
      && PromptRun(After(q, hs[0].0), hs[1..], end)
  }

  /** At every moment of the run a live permit has a wake-up in time. */
  predicate AlwaysInTime(q: Request, hs: seq<(Happening, real)>)
    decreases hs
  {
    InTime(q) && (hs != [] && Ready(q, hs[0].0) ==> AlwaysInTime(After(q, hs[0].0), hs[1..]))
  }

  /** Every lease that becomes a permit's own in the run meets the condition. */
  predicate AllSuit(q: Request, hs: seq<(Happening, real)>)
    decreases hs
  {
    hs != [] && Ready(q, hs[0].0) ==> Suits(q, hs[0].0) && AllSuit(After(q, hs[0].0), hs[1..])
  }

  /**
   A held permit has a wake-up by its local expiry at every moment of every run, from the
   request on, exactly when each lease it is given leaves time for it: the first one when
   its renewal delay is at most its TTL, a renewed one when the round trip and its renewal
   delay together are.
   */
  lemma WakesInTimeExactlyWhenSuited(hs: seq<(Happening, real)>, end: Request)
    requires PromptRun(ASKED, hs, end)
    ensures AlwaysInTime(ASKED, hs) <==> AllSuit(ASKED, hs)
  {
    RunInTimeExactlyWhenSuited(ASKED, hs, end);
  }

  lemma {:induction false} RunInTimeExactlyWhenSuited(q: Request, hs: seq<(Happening, real)>, end: Request)
    requires Inv(q) && InTime(q) && PromptRun(q, hs, end)
    ensures AlwaysInTime(q, hs) <==> AllSuit(q, hs)
    decreases hs
  {
    if hs != [] {
      HappeningKeepsInv(q, hs[0].0);
      StepInTimeExactlyWhenSuited(q, hs[0].0, hs[0].1);
      if Suits(q, hs[0].0) {
        RunInTimeExactlyWhenSuited(After(q, hs[0].0), hs[1..], end);
      }
    }
  }

  /** The limiter suggests no delay of its own and never shortens the TTL. */
  predicate KeepsTtl(q: Request, h: Happening) {
    && (Takes(q, h) ==> q.handed.value.lease.renewAfterMs.None? && q.handed.value.lease.ttlMs > 0.0)
    && (Accepts(q, h) ==>
          h.answer.value.lease.renewAfterMs.None? && h.answer.value.lease.ttlMs >= q.phase.permit.current.ttlMs)
  }

  predicate AllKeepTtl(q: Request, hs: seq<(Happening, real)>)
    decreases hs
  {
    hs != [] && Ready(q, hs[0].0) ==> KeepsTtl(q, hs[0].0) && AllKeepTtl(After(q, hs[0].0), hs[1..])
  }

  /** A wake-up is pending by the local expiry, and no earlier than half a TTL before it. */
  predicate HalfTtlLeft(p: Permit) {
    match p.wake
    case Idle => false
    case Timer(due) => due <= p.localExpiry <= due + p.current.ttlMs / 2.0
    case InFlight(sentAt) => sentAt <= p.localExpiry <= sentAt + p.current.ttlMs / 2.0
  }

  predicate OnTime(q: Request) {
    q.phase.Holding? && q.phase.permit.life.Live? ==> HalfTtlLeft(q.phase.permit) && q.phase.permit.current.ttlMs > 0.0
  }

  lemma NewPermitIsOnTime(lease: Lease, now: real)
    requires lease.renewAfterMs.None? && lease.ttlMs > 0.0
    ensures HalfTtlLeft(NewPermit(lease, now))
  {
  }

  lemma StaysOnTime(q: Request, h: Happening, now: real)
    requires Inv(q) && Ready(q, h) && OnTime(q) && KeepsTtl(q, h)
    requires q.phase.Holding? ==> Prompt(q.phase.permit, TimeOf(h, now))
    ensures OnTime(After(q, h)) && Suits(q, h)
  {
    if Takes(q, h) {
      NewPermitIsOnTime(q.handed.value.lease, h.now);
    }
  }

  /**
   Such a limiter always suits, whatever its round trips: every renewal is sent with at
   most half a TTL left and answered or aborted by the local expiry.
   */
  lemma {:induction false} KeepingTheTtlSuits(q: Request, hs: seq<(Happening, real)>, end: Request)
    requires Inv(q) && OnTime(q) && PromptRun(q, hs, end) && AllKeepTtl(q, hs)
    ensures AllSuit(q, hs) && OnTime(end)
    decreases hs
  {
    if hs != [] {
      HappeningKeepsInv(q, hs[0].0);
      StaysOnTime(q, hs[0].0, hs[0].1);
      KeepingTheTtlSuits(After(q, hs[0].0), hs[1..], end);
    }
  }

  /** From the request on: at every moment a held permit has a wake-up pending within the last half of its TTL. */
  lemma HeldPermitsWakeInTime(hs: seq<(Happening, real)>, end: Request)
    requires PromptRun(ASKED, hs, end) && AllKeepTtl(ASKED, hs)
    ensures AlwaysInTime(ASKED, hs) && OnTime(end)
  {
    KeepingTheTtlSuits(ASKED, hs, end);
    WakesInTimeExactlyWhenSuited(hs, end);
  }

  /** A run that acquires `first` at time 0, renews at `sent` and is answered at `answered` with `next`. */
  function OneRenewal(first: Lease, sent: real, next: Lease, answered: real): seq<(Happening, real)> {
    [(Grant(Good(first)), 0.0), (Resume(false, false, false, 0.0), 0.0),
     (TimerFires(sent), sent), (RenewAnswer(Some(Good(next)), answered), answered)]
  }

  /** The same permit with the answer in. */
  function Renewed(first: Lease, sent: real, next: Lease, answered: real): Request {
    Request(Holding(Permit(next, sent + next.ttlMs, Timer(answered + RenewDelay(next)), Live, false)),
      Some(Good(first)), [WaitStarted, Acquired], [])
  }

  lemma OneRenewalIsPrompt(first: Lease, sent: real, next: Lease, answered: real)
    requires first.id == next.id && sent == RenewDelay(first) && sent < first.ttlMs && sent <= answered <= first.ttlMs
    ensures PromptRun(ASKED, OneRenewal(first, sent, next, answered), Renewed(first, sent, next, answered))
    ensures AllSuit(ASKED, OneRenewal(first, sent, next, answered))
       <==> (answered - sent) + RenewDelay(next) <= next.ttlMs
  {
    var hs := OneRenewal(first, sent, next, answered);
    var q1 := After(ASKED, hs[0].0);
    var q2 := After(q1, hs[1].0);
    var q3 := After(q2, hs[2].0);
    var q4 := After(q3, hs[3].0);
    assert q4.events == [WaitStarted, Acquired];
    assert q4 == Renewed(first, sent, next, answered);
    assert hs[1..][1..] == hs[2..] && hs[2..][1..] == hs[3..] && hs[3..][1..] == [];
    assert PromptRun(q4, [], q4) && PromptRun(q3, hs[3..], q4) && PromptRun(q2, hs[2..], q4) &&
           PromptRun(q1, hs[1..], q4);
    assert AllSuit(q4, []);
    assert AllSuit(q3, hs[3..]) <==> Suits(q3, hs[3].0);
    assert AllSuit(q2, hs[2..]) <==> AllSuit(q3, hs[3..]);
    assert AllSuit(q1, hs[1..]) <==> AllSuit(q2, hs[2..]);
  }

  /**
   The condition fails for real answers: a TTL cut from 1000 ms to 100 ms is late when the
   answer takes 100 ms and in time when it takes 10 ms; a kept TTL with a longer renewal
   delay of the limiter's own is late however fast the answer.
   */
  lemma LateAnswers()
    ensures var first := Lease(7, 1000.0, None);
            var short := Lease(7, 100.0, None);
            var slow := Lease(7, 1000.0, Some(2000.0));
            && PromptRun(ASKED, OneRenewal(first, 500.0, short, 600.0), Renewed(first, 500.0, short, 600.0))
            && !AlwaysInTime(ASKED, OneRenewal(first, 500.0, short, 600.0))
            && PromptRun(ASKED, OneRenewal(first, 500.0, short, 510.0), Renewed(first, 500.0, short, 510.0))
            && AlwaysInTime(ASKED, OneRenewal(first, 500.0, short, 510.0))
            && PromptRun(ASKED, OneRenewal(first, 500.0, slow, 500.0), Renewed(first, 500.0, slow, 500.0))
            && !AlwaysInTime(ASKED, OneRenewal(first, 500.0, slow, 500.0))
  {
    var first, short, slow := Lease(7, 1000.0, None), Lease(7, 100.0, None), Lease(7, 1000.0, Some(2000.0));
    OneRenewalIsPrompt(first, 500.0, short, 600.0);
    OneRenewalIsPrompt(first, 500.0, short, 510.0);
    OneRenewalIsPrompt(first, 500.0, slow, 500.0);
    WakesInTimeExactlyWhenSuited(OneRenewal(first, 500.0, short, 600.0), Renewed(first, 500.0, short, 600.0));
    WakesInTimeExactlyWhenSuited(OneRenewal(first, 500.0, short, 510.0), Renewed(first, 500.0, short, 510.0));
    WakesInTimeExactlyWhenSuited(OneRenewal(first, 500.0, slow, 500.0), Renewed(first, 500.0, slow, 500.0));
  }

  // ----- renewals that keep failing -----

  /** The renewal is rejected, aborted, or answered with something that is not the permit's lease. */
  predicate FailedRenewal(h: Happening, id: LeaseId) {
    h.RenewFails? || (h.RenewAnswer? && h.answer.Some? && !(h.answer.value.Good? && h.answer.value.lease.id == id))
  }

  /** One attempt: the timer fires and, unless the lease has run out, the renewal is sent and fails. */
  datatype Attempt = Attempt(fires: real, fails: Happening)

  predicate Attempts(q: Request, attempt: Attempt) {
    && q.phase.Holding? && q.phase.permit.life.Live? && Possible(q, TimerFires(attempt.fires))
    && FailedRenewal(attempt.fails, q.phase.permit.current.id)
    && attempt.fires <= TimeOf(attempt.fails, attempt.fires)
  }

  function AfterAttempt(q: Request, attempt: Attempt): Request
    requires Attempts(q, attempt)
  {
    var sent := After(q, TimerFires(attempt.fires));
    if sent.phase.Holding? && sent.phase.permit.wake.InFlight? then After(sent, attempt.fails) else sent
  }

  /** Nothing but failing attempts happens to the permit; a timer takes at least a millisecond. */
  predicate FailingRun(q: Request, attempts: seq<Attempt>, end: Request)
    decreases attempts
  {
    if attempts == [] then end == q
    else
      && Attempts(q, attempts[0])
      && (|attempts| > 1 ==> attempts[1].fires >= TimeOf(attempts[0].fails, attempts[0].fires) + 1.0)
      && FailingRun(AfterAttempt(q, attempts[0]), attempts[1..], end)
  }

  /** The permit is lost: revoked, announced, and its one release call made. */
  predicate Lost(q: Request) {
    && q.phase.Holding? && q.phase.permit.revoked && q.phase.permit.life == Releasing(LostLease)
    && q.events != [] && q.events[|q.events| - 1] == LeaseLost
    && q.calls == [Some(q.phase.permit.current.id)]
  }

  lemma AttemptRetriesOrLoses(q: Request, attempt: Attempt)
    requires Inv(q) && Attempts(q, attempt)
    ensures var n := AfterAttempt(q, attempt);
            var p, failed := q.phase.permit, TimeOf(attempt.fails, attempt.fires);
            && Inv(n)
            && (attempt.fires < p.localExpiry && failed < p.localExpiry ==>
                  n.phase == Holding(p.(wake := Timer(failed + RetryDelay(p.localExpiry - failed)))))
            && (attempt.fires >= p.localExpiry || failed >= p.localExpiry ==> Lost(n))
  {
    var sent := After(q, TimerFires(attempt.fires));
    HappeningKeepsInv(q, TimerFires(attempt.fires));
    if sent.phase.permit.wake.InFlight? {
      HappeningKeepsInv(sent, attempt.fails);
    }
  }

  /** How many of the attempts send a renewal: those before the local expiry. */
  function Sent(localExpiry: real, attempts: seq<Attempt>): nat {
    if attempts == [] then 0 else (if attempts[0].fires < localExpiry then 1 else 0) + Sent(localExpiry, attempts[1..])
  }

  /**
   Retries end, and end in the loss of the lease: a permit whose renewals only ever fail
   keeps its local expiry and is asked for again fewer times than milliseconds were left
   at the first attempt; after that many attempts and one more it is lost.
   */
  lemma {:induction false} RetriesEndInLoss(q: Request, attempts: seq<Attempt>, end: Request)
    requires Inv(q) && attempts != [] && FailingRun(q, attempts, end)
    ensures var localExpiry := q.phase.permit.localExpiry;
            var left := localExpiry - attempts[0].fires;
            && (Sent(localExpiry, attempts) > 0 ==> (Sent(localExpiry, attempts) - 1) as real < left)
            && (Lost(end) || (end.phase.Holding? && end.phase.permit.life.Live? && end.phase.permit.wake.Timer?
                              && end.phase.permit.localExpiry == localExpiry))
            && (|attempts| as real >= left + 1.0 ==> Lost(end))
    decreases attempts
  {
    AttemptRetriesOrLoses(q, attempts[0]);
    if |attempts| > 1 {
      RetriesEndInLoss(AfterAttempt(q, attempts[0]), attempts[1..], end);
    }
  }

  // ----- the run: all requests and the first failure -----

  datatype Ctl = Ctl(failure: Option<Failure>, requests: map<RequestId, Request>)

  datatype Step =
    | Admit(id: RequestId, cancelled: bool, expired: bool)
    | Happens(id: RequestId, what: Happening)
    | Dispose

  predicate Enabled(c: Ctl, step: Step) {
    match step
    case Admit(id, _, _) => id !in c.requests
    case Happens(id, h) =>
      id in c.requests && Possible(c.requests[id], h) &&
      (c.requests[id].phase.Resolved? ==> c.requests[id].handed.Some?)
    case Dispose => true
  }

  /** The failure, if any, that `fail` is called with. */
  function FailureOf(q: Request, h: Happening): Option<Failure>
    requires Possible(q, h) && (q.phase.Resolved? ==> q.handed.Some?)
  {
    match h
    case Abort(deadline, cancelled) => Classify(OtherError, deadline, cancelled).1
    case Reject(why, deadline, cancelled) => if q.phase.Waiting? then Classify(why, deadline, cancelled).1 else None
    case Resume(aborted, deadline, cancelled, _) =>
      if !aborted && (q.handed.value.Nameless? || q.handed.value.Missing?)
      then Classify(OtherError, deadline, cancelled).1 else None
    case ReturnSettles(_, deadline, cancelled) =>
      if q.phase.GivingBack? then Classify(OtherError, deadline, cancelled).1 else None
    case _ =>
      if q.phase.Holding? && !q.phase.permit.revoked && After(q, h).phase.Holding? && After(q, h).phase.permit.revoked
      then Some(LostSlot) else None
  }

  function FirstOf(a: Option<Failure>, b: Option<Failure>): Option<Failure> {
    if a.Some? then a else b
  }

  function Disposed(q: Request): Request {
    if q.phase.Holding? then AfterRelease(q, Cancelled) else q
  }

  function Next(c: Ctl, step: Step): Ctl
    requires Enabled(c, step)
  {
    match step
    case Admit(id, cancelled, expired) =>
      if c.failure.Some? || cancelled then c
      else if expired then
        Ctl(Some(Timeout), c.requests[id := Request(Refused, None, [WaitStarted, TimedOut], [])])
      else c.(requests := c.requests[id := ASKED])
    case Happens(id, h) =>
      Ctl(FirstOf(c.failure, FailureOf(c.requests[id], h)), c.requests[id := After(c.requests[id], h)])
    case Dispose => c.(requests := map id | id in c.requests :: Disposed(c.requests[id]))
  }

  ghost predicate AllSound(c: Ctl) {
    forall id :: id in c.requests ==> Inv(c.requests[id])
  }

  lemma DisposedKeepsInv(q: Request)
    requires Inv(q)
    ensures Inv(Disposed(q))
  {
  }

  lemma StepKeepsAll(c: Ctl, step: Step)
    requires AllSound(c) && Enabled(c, step)
    ensures AllSound(Next(c, step))
    ensures c.failure.Some? ==> Next(c, step).failure == c.failure && (step.Admit? ==> Next(c, step) == c)
  {
    match step
    case Admit(id, cancelled, expired) =>
      EmitAnnounces(Request(Refused, None, [], []), WaitStarted, 0, 0, 0);
      EmitAnnounces(Request(Refused, None, [WaitStarted], []), TimedOut, 0, 0, 0);
      assert [WaitStarted] + [TimedOut] == [WaitStarted, TimedOut] && [] + [WaitStarted] == [WaitStarted];
    case Happens(id, h) => HappeningKeepsInv(c.requests[id], h);
    case Dispose =>
      forall id | id in c.requests ensures Inv(Disposed(c.requests[id])) {
        DisposedKeepsInv(c.requests[id]);
      }
  }

  predicate IsFailing(ev: Ev) {
    ev.TimedOut? || ev.QueueFull? || ev.ConfigProblem? || ev.LimiterProblem? || ev.LeaseLost?
  }

  ghost predicate Failing(q: Request) {
    exists ev :: ev in q.events && IsFailing(ev)
  }

  lemma EmitFails(q: Request, ev: Ev)
    ensures Failing(Emit(q, ev)) <==> Failing(q) || IsFailing(ev)
  {
    assert Emit(q, ev).events[|q.events|] == ev;
    if Failing(q) {
      var e :| e in q.events && IsFailing(e);
      assert e in Emit(q, ev).events;
    }
  }

  lemma SameEventsFail(q: Request, n: Request)
    requires q.events == n.events
    ensures Failing(q) <==> Failing(n)
  {
  }

  lemma LossFails(q: Request)
    requires q.phase.Holding?
    ensures Failing(AfterLoss(q)) <==> Failing(q) || q.phase.permit.life.Live?
  {
    EmitFails(q, LeaseLost);
    if q.phase.permit.life.Live? {
      SameEventsFail(Emit(q, LeaseLost), AfterLoss(q));
    }
  }

  lemma RenewFailureFails(q: Request, now: real)
    requires q.phase.Holding?
    ensures Failing(AfterRenewFailure(q, now)) <==>
            Failing(q) || (q.phase.permit.life.Live? && q.phase.permit.localExpiry - now <= 0.0)
  {
    var idle := WithPermit(q, q.phase.permit.(wake := Idle));
    EmitFails(q, RenewalFailed);
    EmitFails(idle, RenewalFailed);
    SameEventsFail(q, idle);
    LossFails(Emit(idle, RenewalFailed));
    var retry := Timer(now + RetryDelay(q.phase.permit.localExpiry - now));
    SameEventsFail(Emit(q, RenewalFailed), Emit(WithPermit(q, q.phase.permit.(wake := retry)), RenewalFailed));
  }

  lemma PermitFails(q: Request, h: Happening)
    requires Inv(q) && Possible(q, h) && q.phase.Holding?
    ensures Failing(After(q, h)) <==> Failing(q) || FailureOf(q, h).Some?
  {
    match h
    case TimerFires(now) => LossFails(WithPermit(q, q.phase.permit.(wake := Idle)));
    case RenewAnswer(answer, now) =>
      LossFails(WithPermit(q, q.phase.permit.(wake := Idle)));
      RenewFailureFails(q, now);
    case RenewFails(now) => RenewFailureFails(q, now);
    case Release(_) =>
    case ReleaseSettles(ok) =>
      var told := if ok then q else Emit(q, ReleaseFailed);
      EmitFails(q, ReleaseFailed);
      EmitFails(WithPermit(told, q.phase.permit.(life := Done)), Released(q.phase.permit.life.outcome));
  }

  lemma ResumeFails(q: Request, aborted: bool, deadline: bool, cancelled: bool, now: real)
    requires Inv(q) && q.phase.Resolved?
    ensures var h := Resume(aborted, deadline, cancelled, now);
            Failing(After(q, h)) <==> Failing(q) || FailureOf(q, h).Some?
  {
    if aborted {
      SameEventsFail(q, GiveBack(q, GivingBack));
    } else {
      match q.handed.value
      case Good(lease) => EmitFails(WithPermit(q, NewPermit(lease, now)), Acquired);
      case Named(_) => SameEventsFail(q, GiveBack(q, GivingBack));
      case _ => EmitFails(q.(phase := Refused), Classify(OtherError, deadline, cancelled).0);
    }
  }

  lemma ReturnFails(q: Request, ok: bool, deadline: bool, cancelled: bool)
    requires q.phase.GivingBack? || q.phase.LateReturn?
    ensures var h := ReturnSettles(ok, deadline, cancelled);
            Failing(After(q, h)) <==> Failing(q) || FailureOf(q, h).Some?
  {
    var told := if ok then q else Emit(q, ReleaseFailed);
    EmitFails(q, ReleaseFailed);
    SameEventsFail(told, told.(phase := Refused));
    EmitFails(told.(phase := Refused), Classify(OtherError, deadline, cancelled).0);
  }

  lemma AdmissionFails(q: Request, h: Happening)
    requires Inv(q) && Possible(q, h) && !q.phase.Holding?
    ensures Failing(After(q, h)) <==> Failing(q) || FailureOf(q, h).Some?
  {
    match h
    case Abort(deadline, cancelled) => EmitFails(q.(phase := Abandoned), Classify(OtherError, deadline, cancelled).0);
    case Grant(_) =>
    case Reject(why, deadline, cancelled) => EmitFails(q.(phase := Refused), Classify(why, deadline, cancelled).0);
    case Resume(aborted, deadline, cancelled, now) => ResumeFails(q, aborted, deadline, cancelled, now);
    case ReturnSettles(ok, deadline, cancelled) => ReturnFails(q, ok, deadline, cancelled);
  }

  /** `fail` is called exactly when the request announces a failure; a cancellation is none. */
  lemma FailureMatchesEvents(q: Request, h: Happening)
    requires Inv(q) && Possible(q, h)
    ensures Failing(After(q, h)) <==> Failing(q) || FailureOf(q, h).Some?
  {
    if q.phase.Holding? {
      PermitFails(q, h);
    } else {
      AdmissionFails(q, h);
    }
  }

  ghost predicate FailureKnown(c: Ctl) {
    c.failure.Some? <==> exists id :: id in c.requests && Failing(c.requests[id])
  }

  /** The run has a failure recorded exactly when one of its requests announced one. */
  lemma StepKeepsFailureKnown(c: Ctl, step: Step)
    requires AllSound(c) && FailureKnown(c) && Enabled(c, step)
    ensures FailureKnown(Next(c, step))
  {
    var n := Next(c, step);
    match step
    case Admit(id, cancelled, expired) =>
      assert TimedOut in Request(Refused, None, [WaitStarted, TimedOut], []).events && IsFailing(TimedOut);
      assert forall i :: i in c.requests ==> i in n.requests && n.requests[i] == c.requests[i];
      if c.failure.None? && !cancelled {
        assert Failing(n.requests[id]) <==> expired;
      }
    case Happens(id, h) =>
      FailureMatchesEvents(c.requests[id], h);
      assert n.requests[id] == After(c.requests[id], h);
      assert forall i :: i in c.requests && i != id ==> n.requests[i] == c.requests[i];
      if Failing(n.requests[id]) {
        assert FailureKnown(n);
      } else if i :| i in c.requests && Failing(c.requests[i]) {
        assert Failing(n.requests[i]);
      }
    case Dispose =>
      forall i | i in c.requests ensures i in n.requests && (Failing(n.requests[i]) <==> Failing(c.requests[i])) {
        SameEventsFail(c.requests[i], Disposed(c.requests[i]));
      }
  }

  predicate HasLivePermit(q: Request) {
    q.phase.Holding? && q.phase.permit.life.Live?
  }

  /** `admit` is in flight and may still turn the limiter's answer into a permit. */
  predicate Awaited(q: Request) {
    q.phase.Waiting? || (q.phase.Resolved? && q.handed.Some? && q.handed.value.Good?)
  }

  predicate NoneAwaited(c: Ctl) {
    forall id :: id in c.requests ==> !Awaited(c.requests[id])
  }

  predicate NoLivePermit(c: Ctl) {
    forall id :: id in c.requests ==> !HasLivePermit(c.requests[id])
  }

  predicate Steps(c: Ctl, steps: seq<Step>, end: Ctl)
    decreases steps
  {
    if steps == [] then end == c
    else Enabled(c, steps[0]) && !steps[0].Admit? && Steps(Next(c, steps[0]), steps[1..], end)
  }

  lemma InFlightMayYetHold(c: Ctl, id: RequestId) returns (steps: seq<Step>, end: Ctl)
    requires AllSound(c) && id in c.requests && Awaited(c.requests[id])
    ensures Steps(c, steps, end) && !NoLivePermit(end)
  {
    var resume := Happens(id, Resume(false, false, false, 0.0));
    if c.requests[id].phase.Waiting? {
      var grant := Happens(id, Grant(Good(Lease(0, 1.0, None))));
      var mid := Next(c, grant);
      end := Next(mid, resume);
      steps := [grant, resume];
      assert Steps(end, [], end) && Steps(mid, [resume], end);
      assert [grant, resume][1..] == [resume];
    } else {
      end := Next(c, resume);
      steps := [resume];
      assert Steps(end, [], end);
    }
    assert HasLivePermit(end.requests[id]);
  }

  /** Without a further `admit`, no permit is ever live. */
  ghost predicate NeverLiveAgain(c: Ctl) {
    forall steps, end :: Steps(c, steps, end) ==> NoLivePermit(end)
  }

  /**
   `dispose` releases every permit there is. That no permit is live ever after, with no
   further `admit`, holds exactly when no earlier `admit` is still in flight.
   */
  lemma DisposeCoversWhatExists(c: Ctl)
    requires AllSound(c)
    ensures NoLivePermit(Next(c, Dispose))
    ensures NeverLiveAgain(Next(c, Dispose)) <==> NoneAwaited(c)
  {
    var d := Next(c, Dispose);
    StepKeepsAll(c, Dispose);
    if !NoneAwaited(c) {
      var id :| id in c.requests && Awaited(c.requests[id]);
      assert d.requests[id] == c.requests[id];
      var steps, end := InFlightMayYetHold(d, id);
      assert Steps(d, steps, end) && !NoLivePermit(end);
    } else {
      assert NoneAwaited(d);
      forall steps, end | Steps(d, steps, end) ensures NoLivePermit(end) {
        OnlyDeadEnds(d, steps, end);
      }
    }
  }

  lemma {:induction false} OnlyDeadEnds(c: Ctl, steps: seq<Step>, end: Ctl)
    requires AllSound(c) && NoLivePermit(c) && NoneAwaited(c) && Steps(c, steps, end)
    ensures NoLivePermit(end)
    decreases steps
  {
    if steps != [] {
      StepKeepsAll(c, steps[0]);
      OnlyDeadEnds(Next(c, steps[0]), steps[1..], end);
    }
  }
}

/** `createPermit` as the object the source builds: one field per closure variable, one method per callback. */
module PermitClass {
  import opened Prelude
  import C = Controller

  /** The part of the run that permits share. */
  class RunState {
    var failure: Option<C.Failure>

    constructor ()
      ensures failure == None
    {
      failure := None;
    }

    /** `fail`: the first failure is kept. */
    method Fail(error: C.Failure)
      modifies this
      ensures failure == C.FirstOf(old(failure), Some(error))
    {
      if failure.None? {
        failure := Some(error);
      }
    }
  }

  class Permit {
    const run: RunState
    const handed: C.Handed
    var current: C.Lease
    var localExpiry: real
    var renewTimer: Option<real>        // when the renewal timer fires
    var sentAt: Option<real>            // when the renewal in flight was sent
    var releasing: Option<C.Outcome>
    var released: bool
    var revoked: bool
    var events: seq<C.Ev>
    var calls: seq<Option<C.LeaseId>>   // `limiter.release` calls

    ghost function Wake(): C.Wake
      reads this
    {
      if sentAt.Some? then C.InFlight(sentAt.value)
      else if renewTimer.Some? then C.Timer(renewTimer.value) else C.Idle
    }

    ghost function Life(): C.Life
      reads this
    {
      if releasing.None? then C.Live else if released then C.Done else C.Releasing(releasing.value)
    }

    ghost function View(): C.Request
      reads this
    {
      C.Request(C.Holding(C.Permit(current, localExpiry, Wake(), Life(), revoked)), Some(handed), events, calls)
    }

    /** A timer and a renewal in flight exclude each other. */
    ghost predicate Valid()
      reads this
    {
      C.Inv(View()) && !(sentAt.Some? && renewTimer.Some?) && (released ==> releasing.Some?)
    }

    constructor (run: RunState, lease: C.Lease, now: real)
      ensures View() == C.AfterResume(C.Request(C.Resolved, Some(C.Good(lease)), [C.WaitStarted], []), false, false,
                                      false, now)
      ensures Valid() && this.run == run
    {
      this.run, handed, current := run, C.Good(lease), lease;
      localExpiry := now + lease.ttlMs;
      renewTimer, sentAt := Some(now + C.RenewDelay(lease)), None;
      releasing, released, revoked := None, false, false;
      events, calls := [C.WaitStarted, C.Acquired], [];
      new;
      assert [C.WaitStarted] + [C.Acquired] == events;
      var q := C.Request(C.Resolved, Some(C.Good(lease)), [C.WaitStarted], []);
      C.EmitAnnounces(C.Request(C.Resolved, None, [], []), C.WaitStarted, 0, 0, 0);
      assert [] + [C.WaitStarted] == q.events;
      C.ResumeKeepsInv(q, false, false, false, now);
    }

    method Emit(ev: C.Ev)
      modifies this`events
      ensures events == old(events) + [ev]
    {
      events := events + [ev];
    }

    method Release(outcome: C.Outcome)
      modifies this`renewTimer, this`calls, this`releasing
      requires !(sentAt.Some? && renewTimer.Some?) && (released ==> releasing.Some?)
      ensures View() == C.AfterRelease(old(View()), outcome)
      ensures !(sentAt.Some? && renewTimer.Some?) && (released ==> releasing.Some?)
    {
      if releasing.Some? {
        return;
      }
      renewTimer := None;
      calls := calls + [Some(current.id)];
      releasing := Some(outcome);
    }

    method Lose()
      requires !(sentAt.Some? && renewTimer.Some?) && (released ==> releasing.Some?)
      modifies this, run
      ensures View() == C.AfterLoss(old(View()))
      ensures !(sentAt.Some? && renewTimer.Some?) && (released ==> releasing.Some?)
      ensures run.failure == if old(releasing).None? then C.FirstOf(old(run.failure), Some(C.LostSlot))
                             else old(run.failure)
    {
      if releasing.Some? {
        return;
      }
      run.Fail(C.LostSlot);
      Emit(C.LeaseLost);
      revoked := true;
      Release(C.LostLease);
    }

    /** `renew`, up to the call of the limiter. */
    method Renew(now: real)
      requires Valid() && C.Possible(View(), C.TimerFires(now))
      modifies this, run
      ensures Valid() && View() == C.After(old(View()), C.TimerFires(now))
      ensures run.failure == C.FirstOf(old(run.failure), C.FailureOf(old(View()), C.TimerFires(now)))
    {
      C.HappeningKeepsInv(View(), C.TimerFires(now));
      renewTimer := None;
      if releasing.Some? {
        return;
      }
      if localExpiry - now <= 0.0 {
        Lose();
        return;
      }
      sentAt := Some(now);
    }

    /** The catch block of `renew`. */
    method Catch(now: real)
      requires !(sentAt.Some? && renewTimer.Some?) && (released ==> releasing.Some?)
      requires sentAt.Some?
      modifies this, run
      ensures View() == C.AfterRenewFailure(old(View()), now)
      ensures !(sentAt.Some? && renewTimer.Some?) && (released ==> releasing.Some?)
      ensures run.failure == if old(releasing).None? && old(localExpiry) - now <= 0.0
                             then C.FirstOf(old(run.failure), Some(C.LostSlot)) else old(run.failure)
    {
      sentAt := None;
      if releasing.Some? {
        return;
      }
      Emit(C.RenewalFailed);
      var left := localExpiry - now;
      if left <= 0.0 {
        Lose();
        return;
      }
      renewTimer := Some(now + C.RetryDelay(left));
    }

    /** The renewal was rejected or aborted. */
    method RenewalFailed(now: real)
      requires Valid() && C.Possible(View(), C.RenewFails(now))
      modifies this, run
      ensures Valid() && View() == C.After(old(View()), C.RenewFails(now))
      ensures run.failure == C.FirstOf(old(run.failure), C.FailureOf(old(View()), C.RenewFails(now)))
    {
      C.HappeningKeepsInv(View(), C.RenewFails(now));
      Catch(now);
    }

    /** The limiter's answer to a renewal. */
    method RenewalAnswered(answer: Option<C.Handed>, now: real)
      requires Valid() && C.Possible(View(), C.RenewAnswer(answer, now))
      modifies this, run
      ensures Valid() && View() == C.After(old(View()), C.RenewAnswer(answer, now))
      ensures run.failure == C.FirstOf(old(run.failure), C.FailureOf(old(View()), C.RenewAnswer(answer, now)))
    {
      C.HappeningKeepsInv(View(), C.RenewAnswer(answer, now));
      if releasing.Some? {
        sentAt := None;
        return;
      }
      if answer.None? {
        sentAt := None;
        Lose();
        return;
      }
      if !answer.value.Good? || answer.value.lease.id != current.id {
        Catch(now);
        return;
      }
      current := answer.value.lease;
      localExpiry := sentAt.value + current.ttlMs;
      sentAt := None;
      renewTimer := Some(now + C.RenewDelay(current));
    }

    /** `release`, as the gate calls it. */
    method ReleaseNow(outcome: C.Outcome)
      requires Valid()
      modifies this
      ensures Valid() && View() == C.After(old(View()), C.Release(outcome))
    {
      C.HappeningKeepsInv(View(), C.Release(outcome));
      Release(outcome);
    }

    /** The release call has settled. */
    method Settled(ok: bool)
      requires Valid() && C.Possible(View(), C.ReleaseSettles(ok))
      modifies this
      ensures Valid() && View() == C.After(old(View()), C.ReleaseSettles(ok))
    {
      C.HappeningKeepsInv(View(), C.ReleaseSettles(ok));
      if !ok {
        Emit(C.ReleaseFailed);
      }
      released := true;
      Emit(C.Released(releasing.value));
    }
  }
}
