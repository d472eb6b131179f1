/**
 What a run can rely on for each provider request, in terms of times, settings and
 announced events: when a renewal is due, that a failed one is tried again in time, how a
 request is refused, and how it ends.
 */
module RequestAnswers {
  import opened Prelude
  import opened Controller

  predicate IsLive(q: Request) {
    q.phase.Holding? && q.phase.permit.life.Live?
  }

  // ----- when renewals are due -----

  /** The wake-up is due when the lease asks for it, or else after half its TTL; never before `now`. */
  predicate DueAsAsked(wake: Wake, lease: Lease, now: real) {
    wake.Timer? &&
    match lease.renewAfterMs
    case None => wake.due == if lease.ttlMs >= 0.0 then now + lease.ttlMs / 2.0 else now
    case Some(delay) => wake.due == if delay >= 0.0 then now + delay else now
  }

  /** A valid lease that `admit` takes becomes a live permit that lasts its TTL from now. */
  lemma FreshPermit(q: Request, cancelled: bool, deadline: bool, now: real)
    requires q.phase.Resolved? && q.handed.Some? && q.handed.value.Good?
    ensures var n, lease := After(q, Resume(false, deadline, cancelled, now)), q.handed.value.lease;
            && IsLive(n) && n.phase.permit.current == lease && !n.phase.permit.revoked
            && n.phase.permit.localExpiry == now + lease.ttlMs
            && DueAsAsked(n.phase.permit.wake, lease, now)
            && n.events == q.events + [Acquired] && n.calls == q.calls
  {
  }

  /** An accepted renewal lasts its TTL from when it was sent, not from when it was answered. */
  lemma RenewedPermit(q: Request, lease: Lease, now: real)
    requires IsLive(q) && q.phase.permit.wake.InFlight? && lease.id == q.phase.permit.current.id
    ensures var n := After(q, RenewAnswer(Some(Good(lease)), now));
            && IsLive(n) && n.phase.permit.current == lease
            && n.phase.permit.localExpiry == q.phase.permit.wake.sentAt + lease.ttlMs
            && DueAsAsked(n.phase.permit.wake, lease, now)
            && n.events == q.events && n.calls == q.calls
  {
  }

  /** A renewal is sent when the timer fires before the local expiry, and then only. */
  lemma TimerSendsOrLoses(q: Request, now: real)
    requires IsLive(q) && Possible(q, TimerFires(now))
    ensures var n := After(q, TimerFires(now));
            if now < q.phase.permit.localExpiry
            then n == WithPermit(q, q.phase.permit.(wake := InFlight(now)))
            else IsLost(q, n, [LeaseLost])
  {
  }

  /** The lease is given up: revoked, announced, and released once. */
  predicate IsLost(q: Request, n: Request, announced: seq<Ev>)
    requires q.phase.Holding?
  {
    && n.phase.Holding? && n.phase.permit.revoked && n.phase.permit.life == Releasing(LostLease)
    && n.phase.permit.wake == Idle
    && n.events == q.events + announced
    && n.calls == q.calls + [Some(q.phase.permit.current.id)]
  }

  // ----- a failed renewal is tried again -----

  /**
   A renewal that fails with time left is announced and tried again after the shorter of
   one second and half the time left; nothing else of the permit changes. One that fails
   with no time left loses the lease.
   */
  lemma FailedRenewalIsRetried(q: Request, h: Happening)
    requires IsLive(q) && Possible(q, h) && FailedRenewal(h, q.phase.permit.current.id)
    ensures var n, p, failed := After(q, h), q.phase.permit, TimeOf(h, 0.0);
            var left := p.localExpiry - failed;
            if left > 0.0 then
              && n.events == q.events + [RenewalFailed] && n.calls == q.calls
              && n.phase.Holding? && n.phase.permit.wake.Timer?
              && n.phase.permit == p.(wake := n.phase.permit.wake)
              && var wait := n.phase.permit.wake.due - failed;
                 0.0 < wait <= 1000.0 && wait <= left / 2.0 && (wait == 1000.0 || wait == left / 2.0)
            else IsLost(q, n, [RenewalFailed, LeaseLost])
  {
    assert q.events + [RenewalFailed] + [LeaseLost] == q.events + [RenewalFailed, LeaseLost];
  }

  /** So a prompt timer after a failure sends another renewal, and does not lose the lease. */
  lemma OneFailureLosesNothing(q: Request, h: Happening)
    requires IsLive(q) && Possible(q, h) && FailedRenewal(h, q.phase.permit.current.id)
    requires TimeOf(h, 0.0) < q.phase.permit.localExpiry
    ensures var n := After(q, h);
            && n.phase.Holding? && n.phase.permit.wake.Timer?
            && n.phase.permit.wake.due < q.phase.permit.localExpiry
            && var due := n.phase.permit.wake.due;
               After(n, TimerFires(due)) == WithPermit(n, q.phase.permit.(wake := InFlight(due)))
  {
    FailedRenewalIsRetried(q, h);
    TimerSendsOrLoses(After(q, h), After(q, h).phase.permit.wake.due);
  }

  // ----- how a request is refused -----

  /**
   What is announced when a request fails, and what the run records: the deadline comes
   before a cancellation, which comes before the error itself; a cancellation is no failure.
   */
  function Announcement(why: Rejection, deadline: bool, cancelled: bool): (Ev, Option<Failure>) {
    match (deadline, cancelled, why)
    case (true, _, _) => (TimedOut, Some(Timeout))
    case (false, _, TimeoutError) => (TimedOut, Some(Timeout))
    case (false, true, _) => (WaitCancelled, None)
    case (false, false, QueueFullError) => (QueueFull, Some(FullQueue))
    case (false, false, ConfigError) => (ConfigProblem, Some(BadConfig))
    case (false, false, OtherError) => (LimiterProblem, Some(LimiterFailed))
  }

  /** The reason for which this event ends the request, if it does. */
  function Refusal(q: Request, h: Happening): Option<(Rejection, bool, bool)> {
    match h
    case Abort(deadline, cancelled) => if q.phase.Waiting? then Some((OtherError, deadline, cancelled)) else None
    case Reject(why, deadline, cancelled) => if q.phase.Waiting? then Some((why, deadline, cancelled)) else None
    case Resume(false, deadline, cancelled, _) =>
      if q.phase.Resolved? && q.handed.Some? && (q.handed.value.Nameless? || q.handed.value.Missing?)
      then Some((OtherError, deadline, cancelled)) else None
    case ReturnSettles(_, deadline, cancelled) =>
      if q.phase.GivingBack? then Some((OtherError, deadline, cancelled)) else None
    case _ => None
  }

  /** Exactly these events announce a verdict, the one that belongs to their reason, and record its failure. */
  lemma VerdictSaysWhy(q: Request, h: Happening)
    requires Possible(q, h) && (q.phase.Resolved? ==> q.handed.Some?)
    ensures var n := After(q, h);
            match Refusal(q, h)
            case Some((why, deadline, cancelled)) =>
              && n.events != [] && n.events[|n.events| - 1] == Announcement(why, deadline, cancelled).0
              && FailureOf(q, h) == Announcement(why, deadline, cancelled).1
              && (n.phase.Refused? || (h.Abort? && n.phase.Abandoned?))
            case None => !q.phase.Holding? ==>
              FailureOf(q, h) == None && forall ev :: ev in n.events && ev !in q.events ==> !IsVerdict(ev)
  {
  }

  /** A lease that comes when the request is no longer wanted, or is not valid, goes straight back under its id. */
  lemma UnwantedLeasesGoBack(q: Request, h: Happening)
    requires Possible(q, h) && (q.phase.Resolved? ==> q.handed.Some?)
    ensures var n := After(q, h);
            && (h.Resume? && h.aborted ==> n.phase.GivingBack? && n.calls == q.calls + [Ref(q.handed.value)])
            && (h.Resume? && q.handed.value.Named? ==>
                  n.phase.GivingBack? && n.calls == q.calls + [Some(q.handed.value.id)])
            && (h.Grant? && q.phase.Abandoned? && !h.handed.Missing? ==>
                  n.phase.LateReturn? && n.calls == q.calls + [Ref(h.handed)])
            && (h.Grant? && q.phase.Waiting? ==> n.phase.Resolved? && n.handed == Some(h.handed) && n.calls == q.calls)
  {
  }

  /**
   A request of a run that has failed or was cancelled is not even started; one after the deadline
   times out at once.
   */
  lemma AdmissionAtTheDoor(c: Ctl, id: RequestId, cancelled: bool, expired: bool)
    requires id !in c.requests
    ensures var n := Next(c, Admit(id, cancelled, expired));
            && (c.failure.Some? || cancelled ==> n == c)
            && (c.failure.None? && !cancelled ==> id in n.requests && n.requests - {id} == c.requests)
            && (c.failure.None? && !cancelled && expired ==>
                  n.failure == Some(Timeout) && n.requests[id].phase.Refused?
                  && n.requests[id].events == [WaitStarted, TimedOut])
            && (c.failure.None? && !cancelled && !expired ==>
                  n.failure == None && n.requests[id].phase.Waiting? && n.requests[id].events == [WaitStarted])
  {
    assert c.requests[id := ASKED] - {id} == c.requests;
    assert c.requests[id := Request(Refused, None, [WaitStarted, TimedOut], [])] - {id} == c.requests;
  }

  // ----- how a permit ends -----

  /** The outcome that the permit's end will carry. */
  predicate EndsAs(q: Request, outcome: Outcome) {
    q.phase.Holding? && (q.phase.permit.life == Releasing(outcome)
      || (q.phase.permit.life.Done? && q.events != [] && q.events[|q.events| - 1] == Released(outcome)))
  }

  lemma EndStays(q: Request, h: Happening, outcome: Outcome)
    requires Inv(q) && Possible(q, h) && EndsAs(q, outcome)
    ensures EndsAs(After(q, h), outcome)
  {
  }

  lemma {:induction false} EndStaysForGood(q: Request, hs: seq<Happening>, end: Request, outcome: Outcome)
    requires Inv(q) && EndsAs(q, outcome) && Run(q, hs, end)
    ensures EndsAs(end, outcome)
    decreases hs
  {
    if hs != [] {
      EndStays(q, hs[0], outcome);
      HappeningKeepsInv(q, hs[0]);
      EndStaysForGood(After(q, hs[0]), hs[1..], end, outcome);
    }
  }

  /** Whatever follows, `released` carries the outcome of the first release. */
  lemma FirstReleaseDecides(q: Request, outcome: Outcome, hs: seq<Happening>, end: Request)
    requires Inv(q) && IsLive(q) && Run(After(q, Release(outcome)), hs, end)
    ensures end.phase.Holding? && !end.phase.permit.life.Live?
    ensures end.phase.permit.life.Done? ==> end.events != [] && end.events[|end.events| - 1] == Released(outcome)
  {
    HappeningKeepsInv(q, Release(outcome));
    EndStaysForGood(After(q, Release(outcome)), hs, end, outcome);
  }

  /** `dispose` ends every live permit as cancelled, and changes no other request. */
  lemma DisposeCancels(c: Ctl, id: RequestId)
    requires AllSound(c) && id in c.requests
    ensures var n := Next(c, Dispose);
            && n.failure == c.failure && id in n.requests
            && if IsLive(c.requests[id]) then EndsAs(n.requests[id], Cancelled) && |n.requests[id].calls| == 1
               else n.requests[id] == c.requests[id]
  {
    assert Inv(c.requests[id]);
  }

  /** And a lost lease ends as lost. */
  lemma LossDecides(q: Request, h: Happening, hs: seq<Happening>, end: Request)
    requires Inv(q) && Possible(q, h) && IsLive(q) && After(q, h).phase.Holding? && After(q, h).phase.permit.revoked
    requires Run(After(q, h), hs, end)
    ensures end.phase.Holding? && !end.phase.permit.life.Live?
    ensures end.phase.permit.life.Done? ==> end.events != [] && end.events[|end.events| - 1] == Released(LostLease)
  {
    HappeningKeepsInv(q, h);
    EndStaysForGood(After(q, h), hs, end, LostLease);
  }

  /** So is one of a lease that `admit` gives back, or of a grant that came too late. */
  lemma ReturnIsReported(q: Request, ok: bool, deadline: bool, cancelled: bool)
    requires q.phase.GivingBack? || q.phase.LateReturn?
    ensures var n := After(q, ReturnSettles(ok, deadline, cancelled));
            var verdict := if q.phase.GivingBack? then [Announcement(OtherError, deadline, cancelled).0] else [];
            n.phase.Refused? && n.events == q.events + (if ok then [] else [ReleaseFailed]) + verdict
  {
    assert q.events + [] == q.events && q.events + [ReleaseFailed] + [] == q.events + [ReleaseFailed];
  }

  /** A release that fails is announced before the end, one that succeeds is not. */
  lemma ReleaseIsReported(q: Request, ok: bool)
    requires q.phase.Holding? && q.phase.permit.life.Releasing?
    ensures var n := After(q, ReleaseSettles(ok));
            n.events == q.events + (if ok then [] else [ReleaseFailed]) + [Released(q.phase.permit.life.outcome)]
  {
    assert q.events + [] == q.events;
  }
}
