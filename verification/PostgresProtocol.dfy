/**
 Any number of workers sharing one limiter in the database. Each `acquire` call runs
 its transactions, its abort checks and its cleanup; other calls' transactions, aborts,
 renewals and releases fall anywhere in between. The times of a transaction are
 arbitrary: nothing below depends on clocks agreeing or on commits following `now()`.
 Database errors are not part of this model.
 */
module PostgresProtocol {
  import opened Prelude
  import opened Policy
  import opened PolicyTheorems
  import opened Allocator
  import opened LimiterSettings
  import opened Postgres
  import MemoryLimiter

  /** The limits the workers hold, by fingerprint; `FleetExists` says that this is a map. */
  type Fleet = map<Fingerprint, Limits>

  datatype Why = BadConfig | Aborted | QueueFull | TimedOut | Disappeared

  /** How far one `acquire` call is. `Cancelling` means `cancelEntry` is still to run. */
  datatype Phase = Starting | Polling | Cancelling(why: Why) | Leased | Rejected(why: Why)

  /** The id of the call is the id of its entry. */
  datatype Call = Call(mark: Fingerprint, workload: string, waitMs: Option<int>, aborted: bool, phase: Phase)

  datatype World = World(table: Table, calls: map<Id, Call>)

  datatype Times = Times(now: int, expiry: int, heartbeat: int, deadline: Option<int>)

  datatype Step =
    | Begin(id: Id, mark: Fingerprint, workload: Option<string>, timeoutMs: Option<int>, aborted: bool)
    | Abort(id: Id)
    | Start(id: Id, times: Times)
    | Poll(id: Id, locked: bool, times: Times)
    | WakeAborted(id: Id)
    | CancelEntry(id: Id, times: Times)
    | RenewLease(id: Id, times: Times)
    | ReleaseLease(id: Id, times: Times)

  ghost predicate InPhase(w: World, id: Id, phase: Phase) {
    id in w.calls && w.calls[id].phase == phase
  }

  ghost predicate Enabled(fleet: Fleet, w: World, step: Step) {
    match step
    case Begin(id, mark, _, _, _) => id !in w.calls && mark in fleet
    case Abort(id) => id in w.calls
    case Start(id, times) => InPhase(w, id, Starting) && times.deadline == DeadlineFor(w.calls[id].waitMs, times.now)
    case Poll(id, _, _) => InPhase(w, id, Polling)
    case WakeAborted(id) => InPhase(w, id, Polling) && w.calls[id].aborted
    case CancelEntry(id, _) => id in w.calls && w.calls[id].phase.Cancelling?
    case RenewLease(id, _) => InPhase(w, id, Leased)
    case ReleaseLease(id, _) => InPhase(w, id, Leased)
  }

  /** `wait_deadline` of a new entry. */
  function DeadlineFor(waitMs: Option<int>, now: int): Option<int> {
    if waitMs.None? then None else Some(now + waitMs.value)
  }

  function FirstPhase(limits: Limits, workload: Option<string>, aborted: bool): Phase {
    if ResolveWorkload(limits, workload).Err? then Rejected(BadConfig)
    else if aborted then Rejected(Aborted) else Starting
  }

  function AfterStart(call: Call, r: Started): Phase {
    match r
    case Mismatch => Rejected(BadConfig)
    case IsFull => Rejected(QueueFull)
    case IsWaiting => Polling
    case IsGranted => if call.aborted then Cancelling(Aborted) else Leased
  }

  /** The tail of the polling loop and its catch block. */
  function AfterPoll(call: Call, r: Polled): Phase {
    match r
    case StillWaiting => Polling
    case GotLease(_) => if call.aborted then Cancelling(Aborted) else Leased
    case PollMismatch => if call.aborted then Cancelling(Aborted) else Rejected(BadConfig)
    case TimedOut => if call.aborted then Cancelling(Aborted) else Rejected(Why.TimedOut)
    case Gone => if call.aborted then Cancelling(Aborted) else Cancelling(Disappeared)
  }

  function InPhaseNow(w: World, id: Id, table: Table, phase: Phase): World
    requires id in w.calls
  {
    World(table, w.calls[id := w.calls[id].(phase := phase)])
  }

  /** What every reachable world satisfies; `mark` is the fingerprint registered first. */
  ghost predicate Sound(fleet: Fleet, mark: Fingerprint, w: World) {
    && mark in fleet
    && Postgres.Inv(fleet[mark], w.table)
    && QueueBounded(fleet[mark], w.table.rows)
    && EntriesHaveCalls(w.table.rows, w.calls)
    && OneOwner(fleet, mark, w)
  }

  ghost predicate OneOwner(fleet: Fleet, mark: Fingerprint, w: World) {
    CallsConfigured(fleet, w.calls) && LockTaken(w) && StillOwned(mark, w.table)
  }

  ghost predicate StillOwned(mark: Fingerprint, t: Table) {
    t.registered.Some? ==> t.registered.value == mark
  }

  ghost predicate QueueBounded(limits: Limits, rows: Rows) {
    limits.maxQueued.Some? ==> CountWaiting(rows) <= limits.maxQueued.value
  }

  ghost predicate CallsConfigured(fleet: Fleet, calls: map<Id, Call>) {
    forall id :: id in calls ==> Known(fleet, calls[id])
  }

  ghost predicate Known(fleet: Fleet, call: Call) {
    call.mark in fleet && (call.phase.Rejected? || call.workload in fleet[call.mark].workloads)
  }

  /** Only calls that are between their first transaction and their rejection have an entry. */
  ghost predicate EntriesHaveCalls(rows: Rows, calls: map<Id, Call>) {
    forall id :: id in rows ==> id in calls && MayHave(calls[id].phase, rows[id])
  }

  predicate MayHave(phase: Phase, row: Row) {
    match phase
    case Starting => false
    case Polling => true
    case Cancelling(_) => true
    case Leased => row.state.Granted?
    case Rejected(_) => false
  }

  /** A call that got past its first transaction holds the registered limits. */
  ghost predicate LockTaken(w: World) {
    forall id :: id in w.calls && PastStart(w.calls[id].phase) ==> UnderItsMark(w.table, w.calls[id])
  }

  predicate PastStart(phase: Phase) {
    phase.Polling? || phase.Cancelling? || phase.Leased?
  }

  ghost predicate UnderItsMark(t: Table, call: Call) {
    t.registered == Some(call.mark)
  }

  ghost predicate Possible(fleet: Fleet, w: World, step: Step) {
    && Enabled(fleet, w, step) && CallsConfigured(fleet, w.calls) && SeqsBelow(w.table)
    && (step.Start? ==> step.id !in w.table.rows)
  }

  ghost function After(fleet: Fleet, w: World, step: Step): World
    requires Possible(fleet, w, step)
  {
    match step
    case Begin(id, mark, workload, timeoutMs, aborted) =>
      var target := ResolveWorkload(fleet[mark], workload);
      var name := if target.Ok? then target.value.0 else "";
      var waitMs := if target.Ok? then MinDefined(timeoutMs, target.value.1.maxWaitMs) else None;
      w.(calls := w.calls[id := Call(mark, name, waitMs, aborted, FirstPhase(fleet[mark], workload, aborted))])
    case Abort(id) => w.(calls := w.calls[id := w.calls[id].(aborted := true)])
    case Start(id, at) =>
      var c := w.calls[id];
      var r := StartTxn(fleet[c.mark], c.mark, w.table, id, c.workload, at.deadline, at.now, at.expiry, at.heartbeat);
      InPhaseNow(w, id, r.0, AfterStart(c, r.1))
    case Poll(id, locked, at) =>
      var c := w.calls[id];
      var r := PollTxn(fleet[c.mark], c.mark, w.table, id, locked, at.now, at.expiry, at.heartbeat);
      InPhaseNow(w, id, r.0, AfterPoll(c, r.1))
    case WakeAborted(id) => InPhaseNow(w, id, w.table, Cancelling(Aborted))
    case CancelEntry(id, at) =>
      var c := w.calls[id];
      InPhaseNow(w, id, CancelTxn(fleet[c.mark], c.mark, w.table, id, at.now, at.expiry), Rejected(c.phase.why))
    case RenewLease(id, at) => w.(table := RenewTxn(w.table, id, at.now, at.expiry))
    case ReleaseLease(id, at) =>
      var c := w.calls[id];
      w.(table := ReleaseTxn(fleet[c.mark], c.mark, w.table, id, at.now, at.expiry))
  }

  // ----- entries only move forward -----

  /** Entries are not created, granted ones stay granted, and none returns to the queue. */
  ghost predicate Forward(rows: Rows, n: Rows) {
    forall id :: id in n ==>
      && id in rows
      && (rows[id].state.Granted? ==> n[id].state.Granted?)
      && (n[id].state.Waiting? ==> rows[id].state.Waiting?)
  }

  lemma AllocatedForward(limits: Limits, rows: Rows, now: int, expiry: int)
    requires DistinctSeqs(rows)
    ensures Forward(rows, Allocated(limits, rows, now, expiry))
  {
  }

  lemma CheckedRows(rows: Rows, n: Rows, id: Id, now: int, heartbeat: int)
    requires Forward(rows, n)
    ensures var r := Checked(n, id, now, heartbeat);
            && Forward(rows, r.0)
            && (r.1.GotLease? && id in r.0 ==> r.0[id].state.Granted?)
            && (r.1.TimedOut? || r.1.Gone? ==> id !in r.0)
            && !r.1.PollMismatch?
  {
  }

  lemma ForwardWithNew(rows: Rows, id: Id, row: Row, n: Rows)
    requires Forward(rows[id := row], n) && id !in rows
    ensures Forward(rows, n - {id})
  {
  }

  lemma ForwardWithout(rows: Rows, id: Id, n: Rows)
    requires Forward(rows - {id}, n)
    ensures Forward(rows, n) && id !in n
  {
  }

  lemma ForwardQueue(limits: Limits, rows: Rows, n: Rows)
    requires Forward(rows, n) && QueueBounded(limits, rows)
    ensures QueueBounded(limits, n)
  {
    MemoryLimiter.FewerWaiters(WaitingOf(n), WaitingOf(rows));
  }

  // ----- the steps keep the world sound -----

  /** The table after the step; the calls do not matter. */
  lemma StartTable(limits: Limits, mark: Fingerprint, t: Table, id: Id, workload: string, at: Times)
    requires Postgres.Inv(limits, t) && QueueBounded(limits, t.rows)
    requires id !in t.rows && workload in limits.workloads
    ensures var r := StartTxn(limits, mark, t, id, workload, at.deadline, at.now, at.expiry, at.heartbeat);
            && Postgres.Inv(limits, r.0) && Reaches(limits, Postgres.Abs(t.rows), Postgres.Abs(r.0.rows))
            && QueueBounded(limits, r.0.rows)
            && Forward(t.rows, r.0.rows - {id})
            && (id in r.0.rows ==> r.1.IsWaiting? || (r.1.IsGranted? && r.0.rows[id].state.Granted?))
  {
    StartIsSound(limits, mark, t, id, workload, at.deadline, at.now, at.expiry, at.heartbeat);
    StartRows(limits, mark, t, id, workload, at);
  }

  lemma StartRows(limits: Limits, mark: Fingerprint, t: Table, id: Id, workload: string, at: Times)
    requires SeqsBelow(t) && QueueBounded(limits, t.rows) && id !in t.rows
    ensures var r := StartTxn(limits, mark, t, id, workload, at.deadline, at.now, at.expiry, at.heartbeat);
            && QueueBounded(limits, r.0.rows)
            && Forward(t.rows, r.0.rows - {id})
            && (id in r.0.rows ==> r.1.IsWaiting? || (r.1.IsGranted? && r.0.rows[id].state.Granted?))
  {
    if Accepts(t, mark) {
      var inserted := Inserted(Registered(t, mark), id, workload, at.deadline, at.heartbeat);
      InsertedSeqs(Registered(t, mark), id, workload, at.deadline, at.heartbeat);
      AllocatedForward(limits, inserted.rows, at.now, at.expiry);
      var n := AllocatedTable(limits, inserted, at.now, at.expiry);
      ForwardWithNew(t.rows, id, inserted.rows[id], n.rows);
      GrantedOrFullRows(limits, t.rows, n, id);
    }
  }

  lemma GrantedOrFullRows(limits: Limits, rows: Rows, n: Table, id: Id)
    requires Forward(rows, n.rows - {id}) && QueueBounded(limits, rows)
    ensures var r := GrantedOrFull(limits, n, id);
            && QueueBounded(limits, r.0.rows)
            && Forward(rows, r.0.rows - {id})
            && (id in r.0.rows ==> r.1.IsWaiting? || (r.1.IsGranted? && r.0.rows[id].state.Granted?))
  {
    ForwardQueue(limits, rows, n.rows - {id});
    assert n.rows - {id} - {id} == n.rows - {id};
    if id in n.rows && n.rows[id].state.Granted? {
      DeletedGrantedRows(n.rows, id);
    }
  }

  lemma PollRows(limits: Limits, mark: Fingerprint, t: Table, id: Id, locked: bool, at: Times)
    requires SeqsBelow(t)
    ensures var r := PollTxn(limits, mark, t, id, locked, at.now, at.expiry, at.heartbeat);
            && Forward(t.rows, r.0.rows)
            && (t.registered == Some(mark) ==> !r.1.PollMismatch?)
            && (r.1.GotLease? && id in r.0.rows ==> r.0.rows[id].state.Granted?)
            && (r.1.TimedOut? || r.1.Gone? ==> id !in r.0.rows)
  {
    AllocatedForward(limits, t.rows, at.now, at.expiry);
    var rows := if locked then Allocated(limits, t.rows, at.now, at.expiry) else t.rows;
    CheckedRows(t.rows, rows, id, at.now, at.heartbeat);
  }

  lemma PollTable(limits: Limits, mark: Fingerprint, t: Table, id: Id, locked: bool, at: Times)
    requires Postgres.Inv(limits, t) && QueueBounded(limits, t.rows)
    ensures var n := PollTxn(limits, mark, t, id, locked, at.now, at.expiry, at.heartbeat).0;
            && Postgres.Inv(limits, n) && Reaches(limits, Postgres.Abs(t.rows), Postgres.Abs(n.rows))
            && QueueBounded(limits, n.rows)
  {
    var n := PollTxn(limits, mark, t, id, locked, at.now, at.expiry, at.heartbeat).0;
    PollIsSound(limits, mark, t, id, locked, at.now, at.expiry, at.heartbeat);
    PollRows(limits, mark, t, id, locked, at);
    ForwardQueue(limits, t.rows, n.rows);
  }

  lemma CancelRows(limits: Limits, mark: Fingerprint, t: Table, id: Id, at: Times)
    requires SeqsBelow(t) && t.registered == Some(mark)
    ensures var n := CancelTxn(limits, mark, t, id, at.now, at.expiry);
            Forward(t.rows, n.rows) && id !in n.rows
  {
    AllocatedForward(limits, t.rows - {id}, at.now, at.expiry);
    ForwardWithout(t.rows, id, CancelTxn(limits, mark, t, id, at.now, at.expiry).rows);
  }

  lemma CancelTable(limits: Limits, mark: Fingerprint, t: Table, id: Id, at: Times)
    requires Postgres.Inv(limits, t) && QueueBounded(limits, t.rows)
    requires t.registered == Some(mark)
    ensures var n := CancelTxn(limits, mark, t, id, at.now, at.expiry);
            && Postgres.Inv(limits, n) && Reaches(limits, Postgres.Abs(t.rows), Postgres.Abs(n.rows))
            && QueueBounded(limits, n.rows)
  {
    CancelIsSound(limits, mark, t, id, at.now, at.expiry);
    CancelRows(limits, mark, t, id, at);
    ForwardQueue(limits, t.rows, CancelTxn(limits, mark, t, id, at.now, at.expiry).rows);
  }

  lemma RenewRows(t: Table, id: Id, at: Times)
    ensures Forward(t.rows, RenewTxn(t, id, at.now, at.expiry).rows)
  {
  }

  lemma RenewTable(limits: Limits, mark: Fingerprint, t: Table, id: Id, at: Times)
    requires Postgres.Inv(limits, t) && QueueBounded(limits, t.rows)
    ensures var n := RenewTxn(t, id, at.now, at.expiry);
            && Postgres.Inv(limits, n) && Reaches(limits, Postgres.Abs(t.rows), Postgres.Abs(n.rows))
            && QueueBounded(limits, n.rows)
  {
    RenewIsSound(limits, t, id, at.now, at.expiry);
    RenewRows(t, id, at);
    ForwardQueue(limits, t.rows, RenewTxn(t, id, at.now, at.expiry).rows);
  }

  lemma ReleaseRows(limits: Limits, mark: Fingerprint, t: Table, id: Id, at: Times)
    requires SeqsBelow(t)
    ensures Forward(t.rows, ReleaseTxn(limits, mark, t, id, at.now, at.expiry).rows)
  {
    AllocatedForward(limits, t.rows, at.now, at.expiry);
    AllocatedForward(limits, t.rows - {id}, at.now, at.expiry);
    ForwardWithout(t.rows, id, Allocated(limits, t.rows - {id}, at.now, at.expiry));
  }

  lemma ReleaseTable(limits: Limits, mark: Fingerprint, t: Table, id: Id, at: Times)
    requires Postgres.Inv(limits, t) && QueueBounded(limits, t.rows)
    ensures var n := ReleaseTxn(limits, mark, t, id, at.now, at.expiry);
            && Postgres.Inv(limits, n) && Reaches(limits, Postgres.Abs(t.rows), Postgres.Abs(n.rows))
            && QueueBounded(limits, n.rows)
  {
    ReleaseIsSound(limits, mark, t, id, at.now, at.expiry);
    ReleaseRows(limits, mark, t, id, at);
    ForwardQueue(limits, t.rows, ReleaseTxn(limits, mark, t, id, at.now, at.expiry).rows);
  }

  // ----- one step of the world -----

  /** Entries move forward except for the one a first transaction may add. */
  ghost predicate StepForward(w: World, step: Step, n: World) {
    if step.Start? then Forward(w.table.rows, n.table.rows - {step.id}) else Forward(w.table.rows, n.table.rows)
  }

  lemma PossibleWhenSound(fleet: Fleet, mark: Fingerprint, w: World, step: Step)
    requires Sound(fleet, mark, w) && Enabled(fleet, w, step)
    ensures Possible(fleet, w, step)
  {
  }

  /** The calls that use the registered limits all use the owner's. */
  lemma HoldsOwnersLimits(fleet: Fleet, mark: Fingerprint, w: World, id: Id)
    requires OneOwner(fleet, mark, w) && id in w.calls && PastStart(w.calls[id].phase)
    ensures w.calls[id].mark == mark && w.table.registered == Some(mark)
  {
    assert UnderItsMark(w.table, w.calls[id]);
  }

  /** The registration is made once and never changes. */
  lemma RegisteredForGood(fleet: Fleet, w: World, step: Step)
    requires Possible(fleet, w, step)
    ensures w.table.registered.Some? ==> After(fleet, w, step).table.registered == w.table.registered
  {
  }

  /** A first transaction either takes place under the owner's limits or leaves the table alone. */
  lemma StartUnderOwner(fleet: Fleet, mark: Fingerprint, w: World, id: Id, at: Times)
    requires Possible(fleet, w, Start(id, at))
    requires StillOwned(mark, After(fleet, w, Start(id, at)).table)
    ensures var c := w.calls[id];
            Accepts(w.table, c.mark) ==> c.mark == mark
  {
    var c := w.calls[id];
    StartRegisters(fleet[c.mark], c.mark, w.table, id, c.workload, at);
  }

  lemma StartRegisters(limits: Limits, m: Fingerprint, t: Table, id: Id, workload: string, at: Times)
    requires SeqsBelow(t) && id !in t.rows
    ensures var n := StartTxn(limits, m, t, id, workload, at.deadline, at.now, at.expiry, at.heartbeat).0;
            n.registered == if Accepts(t, m) then Some(m) else t.registered
  {
  }

  lemma TableAfter(fleet: Fleet, mark: Fingerprint, w: World, step: Step)
    requires Sound(fleet, mark, w) && Possible(fleet, w, step)
    requires StillOwned(mark, After(fleet, w, step).table)
    ensures Postgres.Inv(fleet[mark], After(fleet, w, step).table)
    ensures QueueBounded(fleet[mark], After(fleet, w, step).table.rows)
    ensures Reaches(fleet[mark], Postgres.Abs(w.table.rows), Postgres.Abs(After(fleet, w, step).table.rows))
  {
    match step
    case Start(id, at) =>
      StartUnderOwner(fleet, mark, w, id, at);
      if Accepts(w.table, w.calls[id].mark) {
        StartTable(fleet[mark], mark, w.table, id, w.calls[id].workload, at);
      } else {
        ReachesSelf(fleet[mark], Postgres.Abs(w.table.rows));
      }
    case Poll(id, locked, at) =>
      HoldsOwnersLimits(fleet, mark, w, id);
      PollTable(fleet[mark], mark, w.table, id, locked, at);
    case CancelEntry(id, at) =>
      HoldsOwnersLimits(fleet, mark, w, id);
      CancelTable(fleet[mark], mark, w.table, id, at);
    case RenewLease(id, at) => RenewTable(fleet[mark], mark, w.table, id, at);
    case ReleaseLease(id, at) =>
      HoldsOwnersLimits(fleet, mark, w, id);
      ReleaseTable(fleet[mark], mark, w.table, id, at);
    case _ => ReachesSelf(fleet[mark], Postgres.Abs(w.table.rows));
  }

  /** The entries after a step that concerns call `id`. */
  lemma EntriesStay(rows: Rows, n: Rows, calls: map<Id, Call>, id: Id, phase: Phase)
    requires EntriesHaveCalls(rows, calls) && Forward(rows, n - {id}) && id in calls
    requires id in n ==> MayHave(phase, n[id])
    ensures EntriesHaveCalls(n, calls[id := calls[id].(phase := phase)])
  {
    var after := calls[id := calls[id].(phase := phase)];
    forall i | i in n ensures i in after && MayHave(after[i].phase, n[i]) {
      if i != id {
        assert i in n - {id} && (n - {id})[i] == n[i];
        assert MayHave(calls[i].phase, rows[i]);
      }
    }
  }

  lemma LockStays(w: World, id: Id, table: Table, phase: Phase)
    requires LockTaken(w) && id in w.calls
    requires w.table.registered.Some? ==> table.registered == w.table.registered
    requires PastStart(phase) ==> UnderItsMark(table, w.calls[id].(phase := phase))
    ensures LockTaken(InPhaseNow(w, id, table, phase))
  {
    forall i | i in w.calls && i != id && PastStart(w.calls[i].phase) ensures UnderItsMark(table, w.calls[i]) {
      assert UnderItsMark(w.table, w.calls[i]);
    }
  }

  lemma ConfiguredStays(fleet: Fleet, calls: map<Id, Call>, id: Id, phase: Phase)
    requires CallsConfigured(fleet, calls) && id in calls && !calls[id].phase.Rejected?
    ensures CallsConfigured(fleet, calls[id := calls[id].(phase := phase)])
  {
  }

  /** What a step does to everything but the counts: entries, phases, registration. */
  ghost predicate CallsAfter(fleet: Fleet, mark: Fingerprint, w: World, step: Step)
    requires Possible(fleet, w, step)
  {
    var n := After(fleet, w, step);
    StepForward(w, step, n) && EntriesHaveCalls(n.table.rows, n.calls) && CallsConfigured(fleet, n.calls) &&
      LockTaken(n)
  }

  /** What a first transaction does for its own call. */
  lemma StartServes(fleet: Fleet, mark: Fingerprint, w: World, id: Id, at: Times)
    requires Possible(fleet, w, Start(id, at)) && mark in fleet && QueueBounded(fleet[mark], w.table.rows)
    requires StillOwned(mark, After(fleet, w, Start(id, at)).table)
    ensures var c := w.calls[id];
            var r := StartTxn(fleet[c.mark], c.mark, w.table, id, c.workload, at.deadline, at.now, at.expiry,
                              at.heartbeat);
            && Forward(w.table.rows, r.0.rows - {id})
            && (id in r.0.rows ==> MayHave(AfterStart(c, r.1), r.0.rows[id]))
            && (w.table.registered.Some? ==> r.0.registered == w.table.registered)
            && (PastStart(AfterStart(c, r.1)) ==> r.0.registered == Some(c.mark))
  {
    var c := w.calls[id];
    StartUnderOwner(fleet, mark, w, id, at);
    StartRegisters(fleet[c.mark], c.mark, w.table, id, c.workload, at);
    if Accepts(w.table, c.mark) {
      StartRows(fleet[mark], mark, w.table, id, c.workload, at);
    }
  }

  lemma StartCalls(fleet: Fleet, mark: Fingerprint, w: World, id: Id, at: Times)
    requires OneOwner(fleet, mark, w) && Possible(fleet, w, Start(id, at)) && EntriesHaveCalls(w.table.rows, w.calls)
    requires mark in fleet && QueueBounded(fleet[mark], w.table.rows)
    requires StillOwned(mark, After(fleet, w, Start(id, at)).table)
    ensures CallsAfter(fleet, mark, w, Start(id, at))
  {
    var c := w.calls[id];
    var r := StartTxn(fleet[c.mark], c.mark, w.table, id, c.workload, at.deadline, at.now, at.expiry, at.heartbeat);
    StartServes(fleet, mark, w, id, at);
    EntriesStay(w.table.rows, r.0.rows, w.calls, id, AfterStart(c, r.1));
    ConfiguredStays(fleet, w.calls, id, AfterStart(c, r.1));
    LockStays(w, id, r.0, AfterStart(c, r.1));
  }

  lemma PollCalls(fleet: Fleet, mark: Fingerprint, w: World, id: Id, locked: bool, at: Times)
    requires OneOwner(fleet, mark, w) && Possible(fleet, w, Poll(id, locked, at)) &&
             EntriesHaveCalls(w.table.rows, w.calls)
    ensures CallsAfter(fleet, mark, w, Poll(id, locked, at))
  {
    var c := w.calls[id];
    HoldsOwnersLimits(fleet, mark, w, id);
    var r := PollTxn(fleet[mark], mark, w.table, id, locked, at.now, at.expiry, at.heartbeat);
    PollRows(fleet[mark], mark, w.table, id, locked, at);
    EntriesStay(w.table.rows, r.0.rows, w.calls, id, AfterPoll(c, r.1));
    ConfiguredStays(fleet, w.calls, id, AfterPoll(c, r.1));
    LockStays(w, id, r.0, AfterPoll(c, r.1));
  }

  lemma CancelCalls(fleet: Fleet, mark: Fingerprint, w: World, id: Id, at: Times)
    requires OneOwner(fleet, mark, w) && Possible(fleet, w, CancelEntry(id, at)) &&
             EntriesHaveCalls(w.table.rows, w.calls)
    ensures CallsAfter(fleet, mark, w, CancelEntry(id, at))
  {
    var c := w.calls[id];
    HoldsOwnersLimits(fleet, mark, w, id);
    var t := CancelTxn(fleet[mark], mark, w.table, id, at.now, at.expiry);
    CancelRows(fleet[mark], mark, w.table, id, at);
    EntriesStay(w.table.rows, t.rows, w.calls, id, Rejected(c.phase.why));
    ConfiguredStays(fleet, w.calls, id, Rejected(c.phase.why));
    LockStays(w, id, t, Rejected(c.phase.why));
  }

  /** Renewals and releases change no phase. */
  lemma HolderCalls(fleet: Fleet, w: World, id: Id, t: Table)
    requires CallsConfigured(fleet, w.calls) && LockTaken(w) && EntriesHaveCalls(w.table.rows, w.calls) &&
             InPhase(w, id, Leased)
    requires Forward(w.table.rows, t.rows) && t.registered == w.table.registered
    ensures EntriesHaveCalls(t.rows, w.calls) && LockTaken(w.(table := t))
  {
    forall i | i in t.rows ensures i in w.calls && MayHave(w.calls[i].phase, t.rows[i]) {
      assert MayHave(w.calls[i].phase, w.table.rows[i]);
    }
    forall i | i in w.calls && PastStart(w.calls[i].phase) ensures UnderItsMark(t, w.calls[i]) {
      assert UnderItsMark(w.table, w.calls[i]);
    }
  }

  lemma OtherCalls(fleet: Fleet, mark: Fingerprint, w: World, step: Step)
    requires OneOwner(fleet, mark, w) && Possible(fleet, w, step) && EntriesHaveCalls(w.table.rows, w.calls)
    requires !step.Start? && !step.Poll? && !step.CancelEntry?
    ensures CallsAfter(fleet, mark, w, step)
  {
    match step
    case RenewLease(id, at) =>
      RenewRows(w.table, id, at);
      HolderCalls(fleet, w, id, After(fleet, w, step).table);
    case ReleaseLease(id, at) =>
      HoldsOwnersLimits(fleet, mark, w, id);
      ReleaseRows(fleet[mark], mark, w.table, id, at);
      HolderCalls(fleet, w, id, After(fleet, w, step).table);
    case Begin(id, m, workload, timeoutMs, aborted) =>
      BeginCalls(fleet, w, id, m, workload, timeoutMs, aborted);
    case Abort(id) => AbortCalls(fleet, w, id);
    case WakeAborted(id) =>
      HoldsOwnersLimits(fleet, mark, w, id);
      EntriesStay(w.table.rows, w.table.rows, w.calls, id, Cancelling(Aborted));
      ConfiguredStays(fleet, w.calls, id, Cancelling(Aborted));
      LockStays(w, id, w.table, Cancelling(Aborted));
  }

  lemma BeginCalls(fleet: Fleet, w: World, id: Id, m: Fingerprint, workload: Option<string>, timeoutMs: Option<int>,
                   aborted: bool)
    requires CallsConfigured(fleet, w.calls) && LockTaken(w) && EntriesHaveCalls(w.table.rows, w.calls)
    requires Possible(fleet, w, Begin(id, m, workload, timeoutMs, aborted))
    ensures var n := After(fleet, w, Begin(id, m, workload, timeoutMs, aborted));
            EntriesHaveCalls(n.table.rows, n.calls) && CallsConfigured(fleet, n.calls) && LockTaken(n)
  {
    var n := After(fleet, w, Begin(id, m, workload, timeoutMs, aborted));
    forall i | i in n.calls && PastStart(n.calls[i].phase) ensures UnderItsMark(n.table, n.calls[i]) {
      assert i in w.calls && UnderItsMark(w.table, w.calls[i]);
    }
  }

  lemma AbortCalls(fleet: Fleet, w: World, id: Id)
    requires CallsConfigured(fleet, w.calls) && LockTaken(w) && EntriesHaveCalls(w.table.rows, w.calls) && id in w.calls
    ensures var calls := w.calls[id := w.calls[id].(aborted := true)];
            EntriesHaveCalls(w.table.rows, calls) && CallsConfigured(fleet, calls) && LockTaken(w.(calls := calls))
  {
    var calls := w.calls[id := w.calls[id].(aborted := true)];
    forall i | i in calls && PastStart(calls[i].phase) ensures UnderItsMark(w.table, calls[i]) {
      assert UnderItsMark(w.table, w.calls[i]);
    }
  }

  /**
   One step of any call: the table stays sound under the limits registered first,
   takes only abstract allocator steps, keeps the queue limit, and entries only move
   forward. A rejected call has no entry.
   */
  lemma StepKeepsSound(fleet: Fleet, mark: Fingerprint, w: World, step: Step)
    requires Sound(fleet, mark, w) && Enabled(fleet, w, step)
    ensures Possible(fleet, w, step)
    ensures StillOwned(mark, After(fleet, w, step).table) ==>
              && Sound(fleet, mark, After(fleet, w, step))
              && StepForward(w, step, After(fleet, w, step))
              && Reaches(fleet[mark], Postgres.Abs(w.table.rows), Postgres.Abs(After(fleet, w, step).table.rows))
  {
    PossibleWhenSound(fleet, mark, w, step);
    if StillOwned(mark, After(fleet, w, step).table) {
      TableAfter(fleet, mark, w, step);
      match step
      case Start(id, at) => StartCalls(fleet, mark, w, id, at);
      case Poll(id, locked, at) => PollCalls(fleet, mark, w, id, locked, at);
      case CancelEntry(id, at) => CancelCalls(fleet, mark, w, id, at);
      case _ => OtherCalls(fleet, mark, w, step);
    }
  }

  // ----- whole runs -----

  ghost predicate Run(fleet: Fleet, w: World, steps: seq<Step>, end: World)
    decreases steps
  {
    if steps == [] then end == w
    else Possible(fleet, w, steps[0]) && Run(fleet, After(fleet, w, steps[0]), steps[1..], end)
  }

  lemma {:induction false} RegistrationStays(fleet: Fleet, w: World, steps: seq<Step>, end: World)
    requires Run(fleet, w, steps, end)
    ensures w.table.registered.Some? ==> end.table.registered == w.table.registered
    decreases steps
  {
    if steps != [] {
      RegisteredForGood(fleet, w, steps[0]);
      RegistrationStays(fleet, After(fleet, w, steps[0]), steps[1..], end);
    }
  }

  /** The entry has left the queue, or was refused it. */
  ghost predicate LeftQueue(w: World, id: Id) {
    id in w.calls && w.calls[id].phase != Starting && !(id in w.table.rows && w.table.rows[id].state.Waiting?)
  }

  lemma NeverStartsAgain(fleet: Fleet, w: World, step: Step, id: Id)
    requires Possible(fleet, w, step) && id in w.calls && w.calls[id].phase != Starting
    ensures id in After(fleet, w, step).calls && After(fleet, w, step).calls[id].phase != Starting
  {
  }

  lemma StaysOutOfQueue(fleet: Fleet, w: World, step: Step, n: World, id: Id)
    requires Possible(fleet, w, step) && n == After(fleet, w, step)
    requires LeftQueue(w, id) && StepForward(w, step, n)
    ensures LeftQueue(n, id)
  {
    NeverStartsAgain(fleet, w, step, id);
    if step.Start? {
      assert step.id != id;
      assert id in n.table.rows ==> id in n.table.rows - {step.id};
    }
  }

  lemma {:induction false} RunKeepsSound(fleet: Fleet, mark: Fingerprint, w: World, steps: seq<Step>, end: World)
    requires Sound(fleet, mark, w) && Run(fleet, w, steps, end) && StillOwned(mark, end.table)
    ensures Sound(fleet, mark, end)
    ensures Reaches(fleet[mark], Postgres.Abs(w.table.rows), Postgres.Abs(end.table.rows))
    ensures forall id :: LeftQueue(w, id) ==> LeftQueue(end, id)
    decreases steps
  {
    if steps == [] {
      ReachesSelf(fleet[mark], Postgres.Abs(w.table.rows));
    } else {
      var n := After(fleet, w, steps[0]);
      RegistrationStays(fleet, n, steps[1..], end);
      StepKeepsSound(fleet, mark, w, steps[0]);
      forall id | LeftQueue(w, id) ensures LeftQueue(n, id) {
        StaysOutOfQueue(fleet, w, steps[0], n, id);
      }
      RunKeepsSound(fleet, mark, n, steps[1..], end);
      ReachesTransitive(fleet[mark], Postgres.Abs(w.table.rows), Postgres.Abs(n.table.rows),
                        Postgres.Abs(end.table.rows));
    }
  }

  const EMPTY_WORLD := World(Table(map[], 0, None), map[])

  ghost predicate Usable(limits: Limits) {
    Policy.Valid(limits) && Bounded(limits, map[]) && (limits.maxQueued.Some? ==> limits.maxQueued.value >= 0)
  }

  lemma StartIsSoundWorld(fleet: Fleet, mark: Fingerprint)
    requires mark in fleet && Usable(fleet[mark])
    ensures Sound(fleet, mark, EMPTY_WORLD)
  {
    assert WaitingOf(map[]) == map[] && GrantedOf(map[]) == map[];
    MemoryLimiter.EmptyIsSound(fleet[mark], [], 0);
  }

  /**
   Every run of any number of workers, in any interleaving of their transactions,
   aborts, renewals and releases, from an empty table to one registered under `mark`:
   the ceilings and reservations of those limits hold for the granted rows, the queue
   limit holds, no queued row could be granted, and the rows were reached by abstract
   allocator steps.
   */
  lemma EveryRunIsSafe(fleet: Fleet, mark: Fingerprint, steps: seq<Step>, end: World, w: string)
    requires mark in fleet && Usable(fleet[mark]) && Run(fleet, EMPTY_WORLD, steps, end)
    requires end.table.registered == Some(mark) && w in fleet[mark].workloads
    ensures |GrantedOf(end.table.rows)| <= fleet[mark].maxConcurrent
    ensures |Held(GrantedOf(end.table.rows), w)| <= fleet[mark].workloads[w].maxConcurrent
    ensures |Held(GrantedOf(end.table.rows), w)| + OthersReserved(fleet[mark], w) <= fleet[mark].maxConcurrent
    ensures QueueBounded(fleet[mark], end.table.rows)
    ensures NobodyWaitsInVain(fleet[mark], Postgres.Abs(end.table.rows))
    ensures Reaches(fleet[mark], State(map[], map[]), Postgres.Abs(end.table.rows))
  {
    StartIsSoundWorld(fleet, mark);
    RunKeepsSound(fleet, mark, EMPTY_WORLD, steps, end);
    InvIsSafe(fleet[mark], Postgres.Abs(end.table.rows), w);
    assert WaitingOf(map[]) == map[] && GrantedOf(map[]) == map[];
  }

  /**
   Cancellation safety: whatever happened in between, a rejected `acquire` has left no
   entry behind, one that returned a lease has a granted entry or none, and an entry
   that has left the queue never waits again.
   */
  lemma AcquireIsCancellationSafe(fleet: Fleet, mark: Fingerprint, before: seq<Step>, mid: World, later: seq<Step>,
                                  end: World, id: Id)
    requires mark in fleet && Usable(fleet[mark])
    requires Run(fleet, EMPTY_WORLD, before, mid) && Run(fleet, mid, later, end) && end.table.registered == Some(mark)
    requires id in mid.calls
    ensures mid.calls[id].phase.Rejected? ==> id !in mid.table.rows
    ensures mid.calls[id].phase == Leased && id in mid.table.rows ==> mid.table.rows[id].state.Granted?
    ensures LeftQueue(mid, id) ==> !(id in end.table.rows && end.table.rows[id].state.Waiting?)
  {
    SoundThroughout(fleet, mark, before, mid, later, end);
    if id in mid.table.rows {
      assert MayHave(mid.calls[id].phase, mid.table.rows[id]);
    }
  }

  lemma SoundThroughout(fleet: Fleet, mark: Fingerprint, before: seq<Step>, mid: World, later: seq<Step>, end: World)
    requires mark in fleet && Usable(fleet[mark])
    requires Run(fleet, EMPTY_WORLD, before, mid) && Run(fleet, mid, later, end) && end.table.registered == Some(mark)
    ensures EntriesHaveCalls(mid.table.rows, mid.calls)
    ensures forall id :: LeftQueue(mid, id) ==> LeftQueue(end, id)
  {
    StartIsSoundWorld(fleet, mark);
    RegistrationStays(fleet, mid, later, end);
    RunKeepsSound(fleet, mark, EMPTY_WORLD, before, mid);
    RunKeepsSound(fleet, mark, mid, later, end);
  }

  // ----- the fleet -----

  datatype Worker = Worker(limits: Limits, names: seq<string>)

  ghost predicate Configured(worker: Worker) {
    Lists(worker.names, worker.limits.workloads.Keys)
  }

  ghost function Mark(worker: Worker): Fingerprint
    requires Configured(worker)
  {
    SortNamesSorts(worker.names);
    assert forall w :: w in SortNames(worker.names) ==> w in Elems(SortNames(worker.names));
    FingerprintOf(worker.limits, worker.names)
  }

  /** Workers with equal fingerprints compute equal grants, from whatever share of the queue each has read. */
  lemma EqualMarksEqualGrants(a: Worker, b: Worker, active: map<string, nat>, waiters: set<Waiter>)
    requires Configured(a) && Configured(b) && Mark(a) == Mark(b) && DistinctTickets(waiters)
    ensures Grants(a.limits, active, FirstPerWorkload(waiters, a.limits.maxConcurrent)) ==
            Grants(b.limits, active, waiters)
  {
    FingerprintIdentifiesLimits(a.limits, a.names, b.limits, b.names);
    TruncatedQueueGivesSameGrants(a.limits, active, waiters);
  }

  ghost predicate Equips(fleet: Fleet, workers: seq<Worker>)
    requires forall i :: 0 <= i < |workers| ==> Configured(workers[i])
  {
    forall i :: 0 <= i < |workers| ==> Mark(workers[i]) in fleet && fleet[Mark(workers[i])] == workers[i].limits
  }

  /** Whatever workers take part, equal fingerprints mean equal limits, so the fleet is a map. */
  lemma {:induction false} FleetExists(workers: seq<Worker>) returns (fleet: Fleet)
    requires forall i :: 0 <= i < |workers| ==> Configured(workers[i])
    ensures Equips(fleet, workers)
    decreases |workers|
  {
    if workers == [] {
      fleet := map[];
    } else {
      var last := workers[|workers| - 1];
      var others := workers[..|workers| - 1];
      var fewer := FleetExists(others);
      fleet := fewer[Mark(last) := last.limits];
      forall i | 0 <= i < |workers| ensures Mark(workers[i]) in fleet && fleet[Mark(workers[i])] == workers[i].limits {
        FingerprintIdentifiesLimits(workers[i].limits, workers[i].names, last.limits, last.names);
        if i < |others| {
          assert others[i] == workers[i];
        }
      }
    }
  }
}
