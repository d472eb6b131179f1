/**
 End to end for the Postgres limiter: any number of workers on one table, and the
 permits that hold their leases. A transaction's `now()` is when it began: after its
 worker sent it and before it commits, but in no order with the commits of others. What
 the worker is told is late by the round trip, and the table may have changed since.
 Workers and database read clocks that run alike, all workers use the same lease time,
 and there are no database errors.
 */
module RemoteLeases {
  import opened Prelude
  import opened Policy
  import opened Allocator
  import opened Postgres
  import LimiterSettings
  import PolicyTheorems
  import Sums
  import C = Controller
  import P = PostgresProtocol
  import PostgresAnswers

  // ----- the lease a worker makes of an answer -----

  /** `lease`: the TTL the caller is told, after the round trip is taken off. */
  function RemoteTtl(ttlMs: real, roundTripMs: real): real {
    var left := (ttlMs - roundTripMs).Floor as real;
    if left < 1.0 then 1.0 else left
  }

  /** The caller's expiry, counted from when it has the answer, is within that of the row. */
  predicate WithinRow(sent: real, ran: real, answered: real, ttl: real) {
    answered + RemoteTtl(ttl, answered - sent) <= ran + ttl
  }

  /**
   A transaction that ran at some moment of the round trip made the row last `ttl` from
   then. The caller's expiry stays within the row's for every such moment exactly when
   the clamp to one millisecond is not needed.
   */
  lemma RemoteLeaseIsConservative(sent: real, answered: real, ttl: real)
    requires sent <= answered
    ensures (forall ran :: sent <= ran <= answered ==> WithinRow(sent, ran, answered, ttl))
       <==> ttl - (answered - sent) >= 1.0
  {
    if ttl - (answered - sent) < 1.0 {
      assert !WithinRow(sent, sent, answered, ttl);
    }
  }

  /** No longer whole number of milliseconds would do, so nothing of the lease is given away. */
  lemma RemoteTtlIsLongest(sent: real, answered: real, ttl: real, longer: int)
    requires sent <= answered && ttl - (answered - sent) >= 1.0
    requires longer as real > RemoteTtl(ttl, answered - sent)
    ensures answered + longer as real > sent + ttl
  {
    var left: real := ttl - (answered - sent);
    var whole: int := left.Floor;
    assert longer > whole;
    assert longer as real >= (whole + 1) as real == whole as real + 1.0;
  }

  /** Without a whole millisecond left the lease is stated as one millisecond. */
  lemma RemoteTtlAtLeastOne(ttl: real, roundTripMs: real)
    ensures RemoteTtl(ttl, roundTripMs) >= 1.0
    ensures ttl - roundTripMs < 1.0 ==> RemoteTtl(ttl, roundTripMs) == 1.0
  {
  }

  // ----- workers, table and permits -----

  /** A grant that has committed and whose answer is on its way: when it was asked for, and the TTL the row then had. */
  datatype Grant = Grant(sent: int, ttlMs: int)

  /** `answers`: committed renewals whose answers are on their way, by when the limiter sent them. */
  datatype Joint = Joint(w: P.World, clock: int, grants: map<Id, Grant>, requests: map<Id, C.Request>,
                         answers: map<Id, int>)

  datatype Step =
    | Transaction(step: P.Step, sent: int, at: int)    // it commits at `at`
    | HandOver(id: Id, at: int)                        // the grant's answer arrives and becomes a permit
    | PermitActs(id: Id, what: C.Happening, at: int)

  function TimesOf(step: P.Step): Option<P.Times> {
    match step
    case Start(_, times) => Some(times)
    case Poll(_, _, times) => Some(times)
    case CancelEntry(_, times) => Some(times)
    case RenewLease(_, times) => Some(times)
    case ReleaseLease(_, times) => Some(times)
    case _ => None
  }

  predicate IsLive(q: C.Request) {
    q.phase.Holding? && q.phase.permit.life.Live?
  }

  predicate Sending(q: C.Request) {
    IsLive(q) && q.phase.permit.wake.InFlight?
  }

  function LocalExpiry(q: C.Request): real
    requires q.phase.Holding?
  {
    q.phase.permit.localExpiry
  }

  predicate HasLivePermit(j: Joint, id: Id) {
    id in j.requests && IsLive(j.requests[id])
  }

  /** The lease that is made of a renewal sent at `sent` and answered at `at`. */
  function RenewedLease(id: Id, ttl: int, sent: int, at: int): C.Lease {
    C.Lease(id, RemoteTtl(ttl as real, (at - sent) as real), None)
  }

  /** `now()` lies between sending and committing; releases and renewals come from permits. */
  ghost predicate MayCommit(fleet: P.Fleet, ttl: int, j: Joint, step: P.Step, sent: int, at: int) {
    && P.Possible(fleet, j.w, step)
    && (TimesOf(step).Some? ==>
          var times := TimesOf(step).value;
          sent <= times.now <= at && times.expiry == times.now + ttl)
    && (step.ReleaseLease? ==> !HasLivePermit(j, step.id))
    && (step.RenewLease? ==> step.id in j.requests && RenewalOf(j, step.id, sent))
  }

  /** A live permit has one renewal at a time on its way. */
  predicate RenewalOf(j: Joint, id: Id, sent: int)
    requires id in j.requests
  {
    IsLive(j.requests[id]) ==>
      id !in j.answers && j.requests[id].phase.permit.wake.InFlight?
      && j.requests[id].phase.permit.wake.sentAt <= sent as real
  }

  /** The answer leaves at least a millisecond of the TTL. */
  predicate NoClamp(grant: Grant, at: int) {
    grant.ttlMs - (at - grant.sent) >= 1
  }

  ghost predicate Enabled(fleet: P.Fleet, ttl: int, j: Joint, step: Step) {
    && j.clock <= step.at
    && match step
       case Transaction(s, sent, at) => MayCommit(fleet, ttl, j, s, sent, at)
       case HandOver(id, at) => id in j.grants && id !in j.requests && NoClamp(j.grants[id], at)
       case PermitActs(id, h, at) =>
         && id in j.requests && j.requests[id].phase.Holding?
         && C.Possible(j.requests[id], h) && C.TimeOf(h, at as real) == at as real
         && (h.RenewAnswer? && h.answer.Some? && h.answer.value.Good? ==>
               id in j.answers && h.answer.value.lease == RenewedLease(id, ttl, j.answers[id], at))
  }

  ghost function GrantsAfter(j: Joint, step: P.Step, n: P.World, sent: int): map<Id, Grant> {
    if (step.Start? || step.Poll?) && P.InPhase(n, step.id, P.Leased) && IsGranted(n.table.rows, step.id)
    then j.grants[step.id := Grant(sent, n.table.rows[step.id].state.expiresAt - step.times.now)]
    else if step.ReleaseLease? then j.grants - {step.id} else j.grants
  }

  predicate IsGranted(rows: Rows, id: Id) {
    id in rows && rows[id].state.Granted?
  }

  /** The renewal finds its row and extends it. */
  predicate Renews(rows: Rows, step: P.Step) {
    step.RenewLease? && IsGranted(rows, step.id) && rows[step.id].state.expiresAt > step.times.now
  }

  function FreshRequest(id: Id, grant: Grant, at: int): C.Request {
    var lease := C.Lease(id, RemoteTtl(grant.ttlMs as real, (at - grant.sent) as real), None);
    C.Request(C.Holding(C.NewPermit(lease, at as real)), Some(C.Good(lease)), [C.WaitStarted, C.Acquired], [])
  }

  ghost function Next(fleet: P.Fleet, ttl: int, j: Joint, step: Step): Joint
    requires Enabled(fleet, ttl, j, step)
  {
    match step
    case Transaction(s, sent, at) =>
      var n := P.After(fleet, j.w, s);
      Joint(n, at, GrantsAfter(j, s, n, sent), j.requests,
            if Renews(j.w.table.rows, s) then j.answers[s.id := sent] else j.answers)
    case HandOver(id, at) =>
      Joint(j.w, at, j.grants - {id}, j.requests[id := FreshRequest(id, j.grants[id], at)], j.answers - {id})
    case PermitActs(id, h, at) =>
      Joint(j.w, at, j.grants, j.requests[id := C.After(j.requests[id], h)],
            if h.TimerFires? || h.RenewAnswer? || h.RenewFails? then j.answers - {id} else j.answers)
  }

  lemma GrantIsRead(j: Joint, step: P.Step, n: P.World, sent: int, expiresAt: int)
    requires (step.Start? || step.Poll?) && P.InPhase(n, step.id, P.Leased) && IsGranted(n.table.rows, step.id)
    requires n.table.rows[step.id].state.expiresAt == expiresAt
    ensures var grants := GrantsAfter(j, step, n, sent);
            step.id in grants && grants[step.id] == Grant(sent, expiresAt - step.times.now)
  {
  }

  /** The TTL on its way after a first transaction is a whole lease time. */
  lemma StartGrantIsTheAnswer(fleet: P.Fleet, j: Joint, id: Id, times: P.Times, sent: int, n: P.World)
    requires P.Possible(fleet, j.w, P.Start(id, times)) && n == P.After(fleet, j.w, P.Start(id, times))
    requires j.w.calls[id].mark in fleet && P.InPhase(n, id, P.Leased)
    ensures var grants := GrantsAfter(j, P.Start(id, times), n, sent);
            id in grants && grants[id] == Grant(sent, times.expiry - times.now)
  {
    assert IsGranted(n.table.rows, id) && n.table.rows[id].state.expiresAt == times.expiry by {
      PostgresAnswers.StartedLease(fleet, j.w, id, times);
    }
    GrantIsRead(j, P.Start(id, times), n, sent, times.expiry);
  }

  /** After a poll it is what the poll read in the row. */
  lemma PollGrantIsTheAnswer(fleet: P.Fleet, j: Joint, id: Id, locked: bool, times: P.Times, sent: int)
    requires P.Possible(fleet, j.w, P.Poll(id, locked, times))
    requires j.w.calls[id].mark in fleet && P.InPhase(P.After(fleet, j.w, P.Poll(id, locked, times)), id, P.Leased)
    ensures var mark := j.w.calls[id].mark;
            var answer := PollTxn(fleet[mark], mark, j.w.table, id, locked, times.now, times.expiry, times.heartbeat).1;
            var n := P.After(fleet, j.w, P.Poll(id, locked, times));
            var grants := GrantsAfter(j, P.Poll(id, locked, times), n, sent);
            answer.GotLease? && id in grants && grants[id] == Grant(sent, answer.ttlMs)
  {
    PostgresAnswers.PolledLease(fleet, j.w, id, locked, times);
    var n := P.After(fleet, j.w, P.Poll(id, locked, times));
    GrantIsRead(j, P.Poll(id, locked, times), n, sent, n.table.rows[id].state.expiresAt);
  }

  lemma RemoteTtlOfWhole(ttlMs: int, roundTripMs: int)
    requires ttlMs - roundTripMs >= 1
    ensures RemoteTtl(ttlMs as real, roundTripMs as real) == (ttlMs - roundTripMs) as real
  {
    assert ttlMs as real - roundTripMs as real == (ttlMs - roundTripMs) as real;
  }

  /** The permit counts that TTL from when it was asked for, not from when the answer came. */
  lemma HandedOverPermit(id: Id, grant: Grant, at: int)
    requires grant.ttlMs - (at - grant.sent) >= 1
    ensures var q := FreshRequest(id, grant, at);
            IsLive(q) && LocalExpiry(q) == (grant.sent + grant.ttlMs) as real
  {
    RemoteTtlOfWhole(grant.ttlMs, at - grant.sent);
  }

  // ----- the invariant -----

  /** Until `until` the row is granted, or that time has passed. */
  predicate Covered(rows: Rows, clock: int, id: Id, until: real) {
    until <= clock as real || (IsGranted(rows, id) && until <= rows[id].state.expiresAt as real)
  }

  ghost predicate GrantsCovered(j: Joint) {
    forall id :: id in j.grants ==>
      Covered(j.w.table.rows, j.clock, id, (j.grants[id].sent + j.grants[id].ttlMs) as real)
  }

  ghost predicate PermitsCovered(j: Joint) {
    forall id :: id in j.requests ==> PermitFits(j.w.table.rows, j.clock, id, j.requests[id])
  }

  predicate PermitFits(rows: Rows, clock: int, id: Id, q: C.Request) {
    IsLive(q) ==> Covered(rows, clock, id, LocalExpiry(q))
  }

  /** A renewal on its way will find a row that lasts no longer than it would make it. */
  ghost predicate SendsFit(ttl: int, j: Joint) {
    forall id :: id in j.requests && Sending(j.requests[id]) ==>
      SendFits(ttl, j.w.table.rows, j.clock, id, j.requests[id].phase.permit.wake.sentAt, id in j.answers)
  }

  predicate SendFits(ttl: int, rows: Rows, clock: int, id: Id, sentAt: real, answered: bool) {
    && sentAt <= clock as real
    && (!answered && IsGranted(rows, id) ==> rows[id].state.expiresAt as real <= sentAt + ttl as real)
  }

  predicate AnswerFits(ttl: int, rows: Rows, clock: int, id: Id, q: C.Request, sent: int) {
    Sending(q) ==>
      q.phase.permit.wake.sentAt <= sent as real && sent <= clock &&
      Covered(rows, clock, id, (sent + ttl) as real)
  }

  ghost predicate AnswersFit(ttl: int, j: Joint) {
    forall id :: id in j.answers ==>
      id in j.requests && AnswerFits(ttl, j.w.table.rows, j.clock, id, j.requests[id], j.answers[id])
  }

  ghost predicate ExpireBy(rows: Rows, horizon: int) {
    forall id :: IsGranted(rows, id) ==> rows[id].state.expiresAt <= horizon
  }

  /** Only calls that have returned a lease have permits, or grants to become one. */
  ghost predicate LeasesReturned(j: Joint) {
    && j.grants.Keys !! j.requests.Keys
    && forall id :: id in j.grants || id in j.requests ==> P.InPhase(j.w, id, P.Leased)
  }

  /** Their rows are granted, as long as they are there. */
  ghost predicate RowsGranted(j: Joint) {
    forall id :: (id in j.grants || id in j.requests) && id in j.w.table.rows ==> IsGranted(j.w.table.rows, id)
  }

  ghost predicate Inv(ttl: int, j: Joint) {
    && ExpireBy(j.w.table.rows, j.clock + ttl) && LeasesReturned(j) && RowsGranted(j)
    && GrantsCovered(j) && PermitsCovered(j) && SendsFit(ttl, j) && AnswersFit(ttl, j)
  }

  // ----- what a transaction does to granted rows -----

  /** Granted rows that had not expired when the transaction began are left alone. */
  ghost predicate KeepsGranted(rows: Rows, n: Rows, now: int, touched: set<Id>) {
    forall id :: IsGranted(rows, id) && rows[id].state.expiresAt > now && id !in touched ==>
      IsGranted(n, id) && n[id].state == rows[id].state
  }

  /** Rows are not created, and granted rows keep their state while they are there. */
  ghost predicate OnlyGrants(rows: Rows, n: Rows, touched: set<Id>) {
    forall id :: id in n && id !in touched ==> id in rows && (rows[id].state.Granted? ==> n[id].state == rows[id].state)
  }

  lemma AllocatedKeepsGranted(limits: Limits, rows: Rows, now: int, expiry: int, horizon: int)
    requires DistinctSeqs(rows) && ExpireBy(rows, horizon) && expiry <= horizon
    ensures KeepsGranted(rows, Allocated(limits, rows, now, expiry), now, {})
    ensures OnlyGrants(rows, Allocated(limits, rows, now, expiry), {})
    ensures ExpireBy(Allocated(limits, rows, now, expiry), horizon)
  {
  }

  lemma CheckedKeepsGranted(rows: Rows, id: Id, now: int, heartbeat: int, horizon: int)
    requires ExpireBy(rows, horizon)
    ensures KeepsGranted(rows, Checked(rows, id, now, heartbeat).0, now, {})
    ensures OnlyGrants(rows, Checked(rows, id, now, heartbeat).0, {})
    ensures ExpireBy(Checked(rows, id, now, heartbeat).0, horizon)
  {
  }

  lemma InsertedKeepsGranted(rows: Rows, id: Id, row: Row, now: int, horizon: int)
    requires ExpireBy(rows, horizon) && id !in rows && row.state.Waiting?
    ensures KeepsGranted(rows, rows[id := row], now, {}) && ExpireBy(rows[id := row], horizon)
    ensures OnlyGrants(rows, rows[id := row], {id})
  {
  }

  lemma GrantedOrFullKeepsGranted(limits: Limits, n: Table, id: Id, now: int, horizon: int)
    requires ExpireBy(n.rows, horizon)
    ensures KeepsGranted(n.rows, GrantedOrFull(limits, n, id).0.rows, now, {})
    ensures OnlyGrants(n.rows, GrantedOrFull(limits, n, id).0.rows, {})
    ensures ExpireBy(GrantedOrFull(limits, n, id).0.rows, horizon)
  {
  }

  lemma KeepsGrantedTwice(a: Rows, b: Rows, c: Rows, now: int, touched: set<Id>)
    requires KeepsGranted(a, b, now, touched) && KeepsGranted(b, c, now, {})
    requires OnlyGrants(a, b, touched) && OnlyGrants(b, c, {})
    ensures KeepsGranted(a, c, now, touched) && OnlyGrants(a, c, touched)
  {
  }

  lemma StartKeepsGranted(limits: Limits, mark: LimiterSettings.Fingerprint, t: Table, id: Id, workload: string,
                          at: P.Times, horizon: int)
    requires SeqsBelow(t) && id !in t.rows && ExpireBy(t.rows, horizon) && at.expiry <= horizon
    ensures var n := StartTxn(limits, mark, t, id, workload, at.deadline, at.now, at.expiry, at.heartbeat).0;
            KeepsGranted(t.rows, n.rows, at.now, {id}) && OnlyGrants(t.rows, n.rows, {id}) && ExpireBy(n.rows, horizon)
  {
    if Accepts(t, mark) {
      var r := Registered(t, mark);
      var inserted := Inserted(r, id, workload, at.deadline, at.heartbeat);
      InsertedSeqs(r, id, workload, at.deadline, at.heartbeat);
      InsertedKeepsGranted(t.rows, id, inserted.rows[id], at.now, horizon);
      AllocatedKeepsGranted(limits, inserted.rows, at.now, at.expiry, horizon);
      var n := AllocatedTable(limits, inserted, at.now, at.expiry);
      GrantedOrFullKeepsGranted(limits, n, id, at.now, horizon);
      KeepsGrantedTwice(t.rows, inserted.rows, n.rows, at.now, {id});
      KeepsGrantedTwice(t.rows, n.rows, GrantedOrFull(limits, n, id).0.rows, at.now, {id});
    }
  }

  lemma PollKeepsGranted(limits: Limits, mark: LimiterSettings.Fingerprint, t: Table, id: Id, locked: bool,
                         at: P.Times, horizon: int)
    requires SeqsBelow(t) && ExpireBy(t.rows, horizon) && at.expiry <= horizon
    ensures var n := PollTxn(limits, mark, t, id, locked, at.now, at.expiry, at.heartbeat).0;
            KeepsGranted(t.rows, n.rows, at.now, {}) && OnlyGrants(t.rows, n.rows, {}) && ExpireBy(n.rows, horizon)
  {
    AllocatedKeepsGranted(limits, t.rows, at.now, at.expiry, horizon);
    var rows := if locked then Allocated(limits, t.rows, at.now, at.expiry) else t.rows;
    CheckedKeepsGranted(rows, id, at.now, at.heartbeat, horizon);
  }

  lemma CancelKeepsGranted(limits: Limits, mark: LimiterSettings.Fingerprint, t: Table, id: Id, at: P.Times,
                           horizon: int)
    requires SeqsBelow(t) && ExpireBy(t.rows, horizon) && at.expiry <= horizon
    ensures var n := CancelTxn(limits, mark, t, id, at.now, at.expiry);
            KeepsGranted(t.rows, n.rows, at.now, {id}) && OnlyGrants(t.rows, n.rows, {id}) && ExpireBy(n.rows, horizon)
  {
    if Accepts(t, mark) && IsGranted(t.rows, id) {
      AllocatedKeepsGranted(limits, t.rows - {id}, at.now, at.expiry, horizon);
      WithoutKeepsGranted(t.rows, id, Allocated(limits, t.rows - {id}, at.now, at.expiry), at.now);
    }
  }

  lemma WithoutKeepsGranted(rows: Rows, id: Id, n: Rows, now: int)
    requires KeepsGranted(rows - {id}, n, now, {}) && OnlyGrants(rows - {id}, n, {})
    ensures KeepsGranted(rows, n, now, {id}) && OnlyGrants(rows, n, {id})
  {
  }

  lemma ReleaseKeepsGranted(limits: Limits, mark: LimiterSettings.Fingerprint, t: Table, id: Id, at: P.Times,
                            horizon: int)
    requires SeqsBelow(t) && ExpireBy(t.rows, horizon) && at.expiry <= horizon
    ensures var n := ReleaseTxn(limits, mark, t, id, at.now, at.expiry);
            KeepsGranted(t.rows, n.rows, at.now, {id}) && OnlyGrants(t.rows, n.rows, {id}) && ExpireBy(n.rows, horizon)
  {
    if IsGranted(t.rows, id) {
      AllocatedKeepsGranted(limits, t.rows - {id}, at.now, at.expiry, horizon);
      WithoutKeepsGranted(t.rows, id, Allocated(limits, t.rows - {id}, at.now, at.expiry), at.now);
    } else {
      AllocatedKeepsGranted(limits, t.rows, at.now, at.expiry, horizon);
    }
  }

  /** The one row a transaction may add, take away or change although its lease runs. */
  function Touched(step: P.Step): set<Id> {
    if step.Start? || step.CancelEntry? || step.RenewLease? || step.ReleaseLease? then {step.id} else {}
  }

  lemma TransactionKeepsGranted(fleet: P.Fleet, w: P.World, step: P.Step, at: int, horizon: int)
    requires P.Possible(fleet, w, step) && ExpireBy(w.table.rows, horizon)
    requires TimesOf(step).Some? ==> TimesOf(step).value.now <= at && TimesOf(step).value.expiry <= horizon
    ensures KeepsGranted(w.table.rows, P.After(fleet, w, step).table.rows, at, Touched(step))
    ensures OnlyGrants(w.table.rows, P.After(fleet, w, step).table.rows, Touched(step))
    ensures ExpireBy(P.After(fleet, w, step).table.rows, horizon)
  {
    match step
    case Start(id, times) =>
      var c := w.calls[id];
      StartKeepsGranted(fleet[c.mark], c.mark, w.table, id, c.workload, times, horizon);
    case Poll(id, locked, times) =>
      var c := w.calls[id];
      PollKeepsGranted(fleet[c.mark], c.mark, w.table, id, locked, times, horizon);
    case CancelEntry(id, times) =>
      var c := w.calls[id];
      CancelKeepsGranted(fleet[c.mark], c.mark, w.table, id, times, horizon);
    case ReleaseLease(id, times) =>
      var c := w.calls[id];
      ReleaseKeepsGranted(fleet[c.mark], c.mark, w.table, id, times, horizon);
    case _ =>
  }

  // ----- every step keeps the invariant -----

  /** A row that covers a permit or a grant still does after a transaction that does not touch it. */
  lemma StaysCovered(rows: Rows, n: Rows, clock: int, at: int, touched: set<Id>, id: Id, until: real)
    requires KeepsGranted(rows, n, at, touched) && id !in touched && clock <= at && Covered(rows, clock, id, until)
    ensures Covered(n, at, id, until)
  {
  }

  /** A renewal only ever extends the row of a live permit. */
  lemma RenewalExtends(ttl: int, t: Table, clock: int, at: int, id: Id, times: P.Times, until: real)
    requires Covered(t.rows, clock, id, until) && clock <= at && times.now <= at
    requires IsGranted(t.rows, id) ==> t.rows[id].state.expiresAt <= times.expiry
    ensures Covered(RenewTxn(t, id, times.now, times.expiry).rows, at, id, until)
  {
  }

  lemma LeasedStays(fleet: P.Fleet, w: P.World, step: P.Step, id: Id)
    requires P.Possible(fleet, w, step) && P.InPhase(w, id, P.Leased)
    ensures P.InPhase(P.After(fleet, w, step), id, P.Leased)
    ensures step.Start? || step.Poll? || step.CancelEntry? ==> step.id != id
  {
  }

  lemma PermitStaysCoveredBy(fleet: P.Fleet, ttl: int, j: Joint, s: P.Step, sent: int, at: int, id: Id)
    requires Inv(ttl, j) && j.clock <= at && MayCommit(fleet, ttl, j, s, sent, at)
    requires HasLivePermit(j, id)
    ensures Covered(P.After(fleet, j.w, s).table.rows, at, id, LocalExpiry(j.requests[id]))
  {
    var rows, q := j.w.table.rows, j.requests[id];
    assert PermitFits(rows, j.clock, id, q);
    LeasedStays(fleet, j.w, s, id);
    if id in Touched(s) {
      assert s.RenewLease? && SendFits(ttl, rows, j.clock, id, q.phase.permit.wake.sentAt, id in j.answers);
      RenewalExtends(ttl, j.w.table, j.clock, at, id, s.times, LocalExpiry(q));
    } else {
      TransactionKeepsGranted(fleet, j.w, s, at, at + ttl);
      StaysCovered(rows, P.After(fleet, j.w, s).table.rows, j.clock, at, Touched(s), id, LocalExpiry(q));
    }
  }

  lemma PermitsStayCovered(fleet: P.Fleet, ttl: int, j: Joint, s: P.Step, sent: int, at: int)
    requires Inv(ttl, j) && j.clock <= at && MayCommit(fleet, ttl, j, s, sent, at)
    ensures PermitsCovered(Next(fleet, ttl, j, Transaction(s, sent, at)))
  {
    var n := P.After(fleet, j.w, s).table.rows;
    forall id | id in j.requests ensures PermitFits(n, at, id, j.requests[id]) {
      if IsLive(j.requests[id]) {
        PermitStaysCoveredBy(fleet, ttl, j, s, sent, at, id);
      }
    }
  }

  lemma SendsStayFit(fleet: P.Fleet, ttl: int, j: Joint, s: P.Step, sent: int, at: int)
    requires Inv(ttl, j) && j.clock <= at && MayCommit(fleet, ttl, j, s, sent, at)
    ensures SendsFit(ttl, Next(fleet, ttl, j, Transaction(s, sent, at)))
  {
    var rows, n := j.w.table.rows, Next(fleet, ttl, j, Transaction(s, sent, at));
    TransactionKeepsGranted(fleet, j.w, s, at, at + ttl);
    forall id | id in n.requests && Sending(n.requests[id])
      ensures SendFits(ttl, n.w.table.rows, at, id, n.requests[id].phase.permit.wake.sentAt, id in n.answers)
    {
      assert SendFits(ttl, rows, j.clock, id, j.requests[id].phase.permit.wake.sentAt, id in j.answers);
      LeasedStays(fleet, j.w, s, id);
      if id in Touched(s) {
        assert s.RenewLease?;
      }
    }
  }

  lemma RowStaysGranted(fleet: P.Fleet, ttl: int, j: Joint, s: P.Step, sent: int, at: int, id: Id)
    requires Inv(ttl, j) && j.clock <= at && MayCommit(fleet, ttl, j, s, sent, at)
    requires (id in j.grants || id in j.requests) && id in P.After(fleet, j.w, s).table.rows
    ensures IsGranted(P.After(fleet, j.w, s).table.rows, id)
  {
    TransactionKeepsGranted(fleet, j.w, s, at, at + ttl);
    LeasedStays(fleet, j.w, s, id);
    if id in Touched(s) && s.ReleaseLease? {
      var c := j.w.calls[id];
      ReleasedIsGone(fleet[c.mark], c.mark, j.w.table, id, s.times);
    }
  }

  lemma ReleasedIsGone(limits: Limits, mark: LimiterSettings.Fingerprint, t: Table, id: Id, at: P.Times)
    requires SeqsBelow(t) && (id in t.rows ==> IsGranted(t.rows, id))
    ensures var n := ReleaseTxn(limits, mark, t, id, at.now, at.expiry).rows;
            id in n ==> IsGranted(n, id)
  {
  }

  lemma RowsStayGranted(fleet: P.Fleet, ttl: int, j: Joint, s: P.Step, sent: int, at: int)
    requires Inv(ttl, j) && j.clock <= at && MayCommit(fleet, ttl, j, s, sent, at)
    ensures RowsGranted(Next(fleet, ttl, j, Transaction(s, sent, at)))
  {
    var n := P.After(fleet, j.w, s).table.rows;
    forall id | (id in j.grants || id in j.requests) && id in n ensures IsGranted(n, id) {
      RowStaysGranted(fleet, ttl, j, s, sent, at, id);
    }
  }

  lemma AnswersStayFit(fleet: P.Fleet, ttl: int, j: Joint, s: P.Step, sent: int, at: int)
    requires Inv(ttl, j) && j.clock <= at && MayCommit(fleet, ttl, j, s, sent, at)
    ensures AnswersFit(ttl, Next(fleet, ttl, j, Transaction(s, sent, at)))
  {
    var rows, n := j.w.table.rows, Next(fleet, ttl, j, Transaction(s, sent, at));
    TransactionKeepsGranted(fleet, j.w, s, at, at + ttl);
    forall id | id in n.answers
      ensures id in n.requests && AnswerFits(ttl, n.w.table.rows, at, id, n.requests[id], n.answers[id])
    {
      if id in j.answers {
        assert AnswerFits(ttl, rows, j.clock, id, j.requests[id], j.answers[id]);
        LeasedStays(fleet, j.w, s, id);
        if id !in Touched(s) && Sending(j.requests[id]) {
          StaysCovered(rows, n.w.table.rows, j.clock, at, Touched(s), id, (j.answers[id] + ttl) as real);
        }
      }
    }
  }

  lemma LeasesStayReturned(fleet: P.Fleet, ttl: int, j: Joint, s: P.Step, sent: int, at: int)
    requires Inv(ttl, j) && j.clock <= at && MayCommit(fleet, ttl, j, s, sent, at)
    ensures LeasesReturned(Next(fleet, ttl, j, Transaction(s, sent, at)))
  {
    var n := P.After(fleet, j.w, s);
    forall id | id in j.grants || id in j.requests
      ensures P.InPhase(n, id, P.Leased) && (s.Start? || s.Poll? ==> s.id != id)
    {
      LeasedStays(fleet, j.w, s, id);
    }
  }

  /** A grant that was on its way, after a transaction on the table. */
  lemma GrantStaysCovered(fleet: P.Fleet, ttl: int, j: Joint, s: P.Step, sent: int, at: int, id: Id)
    requires Inv(ttl, j) && j.clock <= at && MayCommit(fleet, ttl, j, s, sent, at)
    requires id in j.grants && !(s.ReleaseLease? && s.id == id)
    ensures Covered(P.After(fleet, j.w, s).table.rows, at, id, (j.grants[id].sent + j.grants[id].ttlMs) as real)
    ensures s.Start? || s.Poll? ==> s.id != id
  {
    var until := (j.grants[id].sent + j.grants[id].ttlMs) as real;
    TransactionKeepsGranted(fleet, j.w, s, at, at + ttl);
    LeasedStays(fleet, j.w, s, id);
    StaysCovered(j.w.table.rows, P.After(fleet, j.w, s).table.rows, j.clock, at, Touched(s), id, until);
  }

  lemma GrantsStayCovered(fleet: P.Fleet, ttl: int, j: Joint, s: P.Step, sent: int, at: int)
    requires Inv(ttl, j) && j.clock <= at && MayCommit(fleet, ttl, j, s, sent, at)
    ensures GrantsCovered(Next(fleet, ttl, j, Transaction(s, sent, at)))
  {
    var n := P.After(fleet, j.w, s);
    var grants := GrantsAfter(j, s, n, sent);
    forall id | id in grants ensures Covered(n.table.rows, at, id, (grants[id].sent + grants[id].ttlMs) as real) {
      if id in j.grants {
        GrantStaysCovered(fleet, ttl, j, s, sent, at, id);
      }
    }
  }

  lemma TransactionKeepsInv(fleet: P.Fleet, ttl: int, j: Joint, s: P.Step, sent: int, at: int)
    requires Inv(ttl, j) && j.clock <= at && MayCommit(fleet, ttl, j, s, sent, at)
    ensures Inv(ttl, Next(fleet, ttl, j, Transaction(s, sent, at)))
  {
    TransactionKeepsGranted(fleet, j.w, s, at, at + ttl);
    LeasesStayReturned(fleet, ttl, j, s, sent, at);
    RowsStayGranted(fleet, ttl, j, s, sent, at);
    GrantsStayCovered(fleet, ttl, j, s, sent, at);
    PermitsStayCovered(fleet, ttl, j, s, sent, at);
    SendsStayFit(fleet, ttl, j, s, sent, at);
    AnswersStayFit(fleet, ttl, j, s, sent, at);
  }

  /** Nothing is lost while the clock moves on. */
  lemma TimePasses(ttl: int, j: Joint, at: int)
    requires Inv(ttl, j) && j.clock <= at
    ensures Inv(ttl, j.(clock := at))
  {
    var n := j.(clock := at);
    forall id | id in n.requests ensures PermitFits(n.w.table.rows, at, id, n.requests[id]) {
      assert PermitFits(j.w.table.rows, j.clock, id, j.requests[id]);
    }
    forall id | id in n.answers
      ensures id in n.requests && AnswerFits(ttl, n.w.table.rows, at, id, n.requests[id], n.answers[id])
    {
      assert AnswerFits(ttl, j.w.table.rows, j.clock, id, j.requests[id], j.answers[id]);
    }
    forall id | id in n.requests && Sending(n.requests[id])
      ensures SendFits(ttl, n.w.table.rows, at, id, n.requests[id].phase.permit.wake.sentAt, id in n.answers)
    {
      assert SendFits(ttl, j.w.table.rows, j.clock, id, j.requests[id].phase.permit.wake.sentAt, id in j.answers);
    }
  }

  /** A fresh lease, counted from its arrival, ends with the row it was read from. */
  lemma FreshIsCovered(rows: Rows, clock: int, id: Id, grant: Grant)
    requires NoClamp(grant, clock) && Covered(rows, clock, id, (grant.sent + grant.ttlMs) as real)
    ensures PermitFits(rows, clock, id, FreshRequest(id, grant, clock))
  {
  }

  lemma HandOverKeepsInv(fleet: P.Fleet, ttl: int, j: Joint, id: Id, at: int)
    requires Inv(ttl, j) && Enabled(fleet, ttl, j, HandOver(id, at))
    ensures Inv(ttl, Next(fleet, ttl, j, HandOver(id, at)))
  {
    var t, n := j.(clock := at), Next(fleet, ttl, j, HandOver(id, at));
    TimePasses(ttl, j, at);
    FreshIsCovered(j.w.table.rows, at, id, j.grants[id]);
    forall i | i in n.requests ensures PermitFits(n.w.table.rows, at, i, n.requests[i]) {
      assert i != id ==> PermitFits(t.w.table.rows, at, i, t.requests[i]);
    }
    forall i | i in n.answers
      ensures i in n.requests && AnswerFits(ttl, n.w.table.rows, at, i, n.requests[i], n.answers[i])
    {
      assert AnswerFits(ttl, t.w.table.rows, at, i, t.requests[i], t.answers[i]);
    }
    forall i | i in n.requests && Sending(n.requests[i])
      ensures SendFits(ttl, n.w.table.rows, at, i, n.requests[i].phase.permit.wake.sentAt, i in n.answers)
    {
      assert SendFits(ttl, t.w.table.rows, at, i, t.requests[i].phase.permit.wake.sentAt, i in t.answers);
    }
  }

  /**
   What one permit does to its own local expiry. A renewed lease counts from when the
   permit sent the renewal, which is before the limiter did, so it needs no condition on
   the round trip: even clamped to a millisecond it ends before the row.
   */
  lemma PermitStaysCovered(ttl: int, rows: Rows, clock: int, id: Id, q: C.Request, h: C.Happening, sent: int)
    requires ttl >= 1 && q.phase.Holding? && C.Possible(q, h) && C.TimeOf(h, clock as real) == clock as real
    requires PermitFits(rows, clock, id, q)
    requires h.RenewAnswer? && h.answer.Some? && h.answer.value.Good? ==>
               AnswerFits(ttl, rows, clock, id, q, sent) && h.answer.value.lease == RenewedLease(id, ttl, sent, clock)
    ensures PermitFits(rows, clock, id, C.After(q, h))
    ensures Sending(C.After(q, h)) ==> C.After(q, h).phase.permit.wake.sentAt == clock as real || C.After(q, h) == q
    ensures Sending(C.After(q, h)) && C.After(q, h) != q ==> h.TimerFires?
  {
  }

  lemma PermitKeepsCover(fleet: P.Fleet, ttl: int, j: Joint, id: Id, h: C.Happening, at: int)
    requires ttl >= 1 && Inv(ttl, j.(clock := at)) && Enabled(fleet, ttl, j, PermitActs(id, h, at))
    ensures PermitsCovered(Next(fleet, ttl, j, PermitActs(id, h, at)))
    ensures Sending(C.After(j.requests[id], h)) && C.After(j.requests[id], h) != j.requests[id] ==>
              h.TimerFires? && C.After(j.requests[id], h).phase.permit.wake.sentAt == at as real
  {
    var t, n := j.(clock := at), Next(fleet, ttl, j, PermitActs(id, h, at));
    var q, rows := j.requests[id], j.w.table.rows;
    assert PermitFits(rows, at, id, t.requests[id]);
    assert id in j.answers ==> AnswerFits(ttl, rows, at, id, t.requests[id], t.answers[id]);
    PermitStaysCovered(ttl, rows, at, id, q, h, if id in j.answers then j.answers[id] else 0);
    forall i | i in n.requests ensures PermitFits(rows, at, i, n.requests[i]) {
      assert PermitFits(rows, at, i, t.requests[i]);
    }
  }

  lemma PermitKeepsInv(fleet: P.Fleet, ttl: int, j: Joint, id: Id, h: C.Happening, at: int)
    requires ttl >= 1 && Inv(ttl, j) && Enabled(fleet, ttl, j, PermitActs(id, h, at))
    ensures Inv(ttl, Next(fleet, ttl, j, PermitActs(id, h, at)))
  {
    var t, n, rows := j.(clock := at), Next(fleet, ttl, j, PermitActs(id, h, at)), j.w.table.rows;
    TimePasses(ttl, j, at);
    PermitKeepsCover(fleet, ttl, j, id, h, at);
    forall i | i in n.answers ensures i in n.requests && AnswerFits(ttl, rows, at, i, n.requests[i], n.answers[i]) {
      assert AnswerFits(ttl, rows, at, i, t.requests[i], t.answers[i]);
    }
    forall i | i in n.requests && Sending(n.requests[i])
      ensures SendFits(ttl, rows, at, i, n.requests[i].phase.permit.wake.sentAt, i in n.answers)
    {
      assert Sending(t.requests[i]) ==>
             SendFits(ttl, rows, at, i, t.requests[i].phase.permit.wake.sentAt, i in t.answers);
    }
  }

  /** Whatever happens next, permits that believe in their lease are still covered by their rows. */
  lemma StepKeepsInv(fleet: P.Fleet, ttl: int, j: Joint, step: Step)
    requires ttl >= 1 && Inv(ttl, j) && Enabled(fleet, ttl, j, step)
    ensures Inv(ttl, Next(fleet, ttl, j, step))
  {
    match step
    case Transaction(s, sent, at) => TransactionKeepsInv(fleet, ttl, j, s, sent, at);
    case HandOver(id, at) => HandOverKeepsInv(fleet, ttl, j, id, at);
    case PermitActs(id, h, at) => PermitKeepsInv(fleet, ttl, j, id, h, at);
  }

  // ----- runs -----

  ghost predicate Run(fleet: P.Fleet, ttl: int, j: Joint, steps: seq<Step>, end: Joint)
    decreases steps
  {
    if steps == [] then end == j
    else Enabled(fleet, ttl, j, steps[0]) && Run(fleet, ttl, Next(fleet, ttl, j, steps[0]), steps[1..], end)
  }

  /** The transactions among the steps. */
  function Transactions(steps: seq<Step>): seq<P.Step> {
    if steps == [] then []
    else (if steps[0].Transaction? then [steps[0].step] else []) + Transactions(steps[1..])
  }

  lemma {:induction false} RunKeepsInv(fleet: P.Fleet, ttl: int, j: Joint, steps: seq<Step>, end: Joint)
    requires ttl >= 1 && Inv(ttl, j) && Run(fleet, ttl, j, steps, end)
    ensures Inv(ttl, end)
    decreases steps
  {
    if steps != [] {
      StepKeepsInv(fleet, ttl, j, steps[0]);
      RunKeepsInv(fleet, ttl, Next(fleet, ttl, j, steps[0]), steps[1..], end);
    }
  }

  lemma StepIsTransactionOrNothing(fleet: P.Fleet, ttl: int, j: Joint, step: Step)
    requires Enabled(fleet, ttl, j, step)
    ensures if step.Transaction?
            then P.Possible(fleet, j.w, step.step) && Next(fleet, ttl, j, step).w == P.After(fleet, j.w, step.step)
            else Next(fleet, ttl, j, step).w == j.w
  {
  }

  /** The workers and their table take a run of the protocol. */
  lemma {:induction false} RunOfTheProtocol(fleet: P.Fleet, ttl: int, j: Joint, steps: seq<Step>, end: Joint)
    requires Run(fleet, ttl, j, steps, end)
    ensures P.Run(fleet, j.w, Transactions(steps), end.w)
    decreases steps
  {
    if steps != [] {
      StepIsTransactionOrNothing(fleet, ttl, j, steps[0]);
      RunOfTheProtocol(fleet, ttl, Next(fleet, ttl, j, steps[0]), steps[1..], end);
      if steps[0].Transaction? {
        assert Transactions(steps) == [steps[0].step] + Transactions(steps[1..]);
        assert Transactions(steps)[1..] == Transactions(steps[1..]);
      } else {
        assert Transactions(steps) == Transactions(steps[1..]);
      }
    }
  }

  /** The permits that are unreleased and, by their own clock, still hold their lease. */
  ghost function LocallyValid(j: Joint): set<Id> {
    set id | id in j.requests && IsLive(j.requests[id]) && LocalExpiry(j.requests[id]) > j.clock as real
  }

  function Beginning(clock: int): Joint {
    Joint(P.EMPTY_WORLD, clock, map[], map[], map[])
  }

  /**
   Through lease expiry, across workers: in every interleaving of transactions, answers,
   timers, renewals and releases, each unreleased permit that believes its lease is still
   valid has a granted row of its own in the table that has not expired and lasts at
   least as long; so there are never more of them than the registered limit allows.
   */
  lemma LocallyValidPermitsHoldRows(fleet: P.Fleet, mark: LimiterSettings.Fingerprint, ttl: int, clock: int,
                                    steps: seq<Step>, end: Joint)
    requires mark in fleet && P.Usable(fleet[mark]) && ttl >= 1
    requires Run(fleet, ttl, Beginning(clock), steps, end) && end.w.table.registered == Some(mark)
    ensures forall id :: id in LocallyValid(end) ==>
              IsGranted(end.w.table.rows, id)
              && LocalExpiry(end.requests[id]) <= end.w.table.rows[id].state.expiresAt as real
              && end.w.table.rows[id].state.expiresAt > end.clock
    ensures |LocallyValid(end)| <= fleet[mark].maxConcurrent
  {
    RunKeepsInv(fleet, ttl, Beginning(clock), steps, end);
    RunOfTheProtocol(fleet, ttl, Beginning(clock), steps, end);
    var rows := end.w.table.rows;
    forall id | id in LocallyValid(end)
      ensures IsGranted(rows, id) && LocalExpiry(end.requests[id]) <= rows[id].state.expiresAt as real
    {
      assert PermitFits(rows, end.clock, id, end.requests[id]);
    }
    P.StartIsSoundWorld(fleet, mark);
    P.RunKeepsSound(fleet, mark, P.EMPTY_WORLD, Transactions(steps), end.w);
    PolicyTheorems.SubsetSize(LocallyValid(end), GrantedOf(rows).Keys);
    GrantedFit(fleet[mark], rows);
  }

  lemma GrantedFit(limits: Limits, rows: Rows)
    requires Allocator.Inv(limits, Abs(rows))
    ensures |GrantedOf(rows).Keys| <= limits.maxConcurrent
  {
    TotalIsSlots(limits, GrantedOf(rows));
    Sums.SumNonNegative(Shortfalls(limits, ActiveOf(limits, GrantedOf(rows))));
  }
}
