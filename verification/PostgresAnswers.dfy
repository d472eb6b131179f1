/**
 What callers of the Postgres limiter can rely on, in terms of the columns and the times of
 the transactions: which rows a clean-up removes and which it keeps, what a transaction
 answers, and why an `acquire` is rejected.
 */
module PostgresAnswers {
  import opened Prelude
  import opened Policy
  import opened Allocator
  import opened Postgres
  import LimiterSettings
  import P = PostgresProtocol

  // ----- rows -----

  /** What `allocate` may do to a row, by its columns. */
  lemma AllocatedRow(limits: Limits, rows: Rows, now: int, expiry: int, id: Id)
    requires DistinctSeqs(rows) && id in rows
    ensures var n := Allocated(limits, rows, now, expiry);
            match rows[id].state
            case Waiting(deadline) =>
              if rows[id].heartbeat <= now then id !in n
              else if deadline.Some? && deadline.value <= now then id in n && n[id] == rows[id].(state := Expired)
              else id in n && (n[id] == rows[id] || n[id] == rows[id].(state := Granted(expiry)))
            case Granted(expiresAt) => if expiresAt <= now then id !in n else id in n && n[id] == rows[id]
            case Expired => if rows[id].heartbeat <= now then id !in n else id in n && n[id] == rows[id]
  {
  }

  /** It creates none. */
  lemma AllocateAddsNoRow(limits: Limits, rows: Rows, now: int, expiry: int)
    requires DistinctSeqs(rows)
    ensures Allocated(limits, rows, now, expiry).Keys <= rows.Keys
  {
  }

  /** Nobody waits in the table behind a lease that has run out, a silent entry, or past a deadline. */
  lemma AllocateLeavesOnlyValidRows(limits: Limits, rows: Rows, now: int, expiry: int, id: Id)
    requires DistinctSeqs(rows) && now < expiry && id in Allocated(limits, rows, now, expiry)
    ensures var row := Allocated(limits, rows, now, expiry)[id];
            match row.state
            case Waiting(deadline) => row.heartbeat > now && (deadline.None? || deadline.value > now)
            case Granted(expiresAt) => expiresAt > now
            case Expired => row.heartbeat > now
  {
    AllocateAddsNoRow(limits, rows, now, expiry);
    AllocatedRow(limits, rows, now, expiry, id);
  }

  /** The second half of a poll: what it answers, and that it keeps the entry alive. */
  lemma CheckedRow(rows: Rows, id: Id, now: int, heartbeat: int)
    ensures var r := Checked(rows, id, now, heartbeat);
            && (forall i :: i != id ==> (i in r.0 <==> i in rows) && (i in rows ==> r.0[i] == rows[i]))
            && (id !in rows ==> r == (rows, Gone))
            && (id in rows ==>
                  match rows[id].state
                  case Waiting(_) => r.1 == StillWaiting && id in r.0 && r.0[id] == rows[id].(heartbeat := heartbeat)
                  case Granted(expiresAt) =>
                    r.1 == GotLease(expiresAt - now) && id in r.0 && r.0[id] == rows[id].(heartbeat := heartbeat)
                  case Expired => r.1 == TimedOut && id !in r.0)
  {
  }

  // ----- transactions -----

  lemma WaitingWithout(rows: Rows, id: Id)
    ensures WaitingOf(rows - {id}) == WaitingOf(rows) - {id}
  {
  }

  lemma FullCounts(rows: Rows, id: Id)
    ensures CountWaiting(rows - {id}) >= CountWaiting(rows) - 1
  {
    WaitingWithout(rows, id);
    var all, others := WaitingOf(rows), WaitingOf(rows) - {id};
    assert all.Keys <= others.Keys + {id};
    PolicyTheorems.SubsetSize(all.Keys, others.Keys + {id});
    assert |all| == |all.Keys| && |others| == |others.Keys|;
  }

  /** The answer of a first transaction, given the rows its pass left behind. */
  ghost predicate Answered(limits: Limits, n: Table, id: Id, end: Table, answer: Started) {
    match answer
    case Mismatch => false
    case IsGranted => end == n && id in n.rows && n.rows[id].state.Granted?
    case IsFull =>
      && end == n.(rows := n.rows - {id}) && !(id in n.rows && n.rows[id].state.Granted?)
      && limits.maxQueued.Some? && CountWaiting(end.rows) >= limits.maxQueued.value
    case IsWaiting =>
      && end == n && !(id in n.rows && n.rows[id].state.Granted?)
      && (limits.maxQueued.Some? ==> CountWaiting(end.rows) <= limits.maxQueued.value)
  }

  lemma GrantedOrFullAnswers(limits: Limits, n: Table, id: Id)
    ensures Answered(limits, n, id, GrantedOrFull(limits, n, id).0, GrantedOrFull(limits, n, id).1)
  {
    FullCounts(n.rows, id);
  }

  /** The rows after the pass of a first transaction. */
  ghost function Passed(limits: Limits, mark: LimiterSettings.Fingerprint, t: Table, id: Id, workload: string,
                        at: P.Times): Table
    requires SeqsBelow(t) && id !in t.rows
  {
    InsertedSeqs(Registered(t, mark), id, workload, at.deadline, at.heartbeat);
    AllocatedTable(limits, Inserted(Registered(t, mark), id, workload, at.deadline, at.heartbeat), at.now, at.expiry)
  }

  /** The entry of the call right after that pass: granted or waiting, unless a limit of its own has passed already. */
  predicate EntersAsAsked(rows: Rows, id: Id, workload: string, at: P.Times) {
    if at.heartbeat <= at.now then id !in rows
    else
      && id in rows && rows[id].workload == workload && rows[id].heartbeat == at.heartbeat
      && if at.deadline.Some? && at.deadline.value <= at.now then rows[id].state == Expired
         else rows[id].state == Granted(at.expiry) || rows[id].state == Waiting(at.deadline)
  }

  lemma PassedRow(limits: Limits, mark: LimiterSettings.Fingerprint, t: Table, id: Id, workload: string, at: P.Times)
    requires SeqsBelow(t) && id !in t.rows
    ensures EntersAsAsked(Passed(limits, mark, t, id, workload, at).rows, id, workload, at)
  {
    InsertedSeqs(Registered(t, mark), id, workload, at.deadline, at.heartbeat);
    var q := Inserted(Registered(t, mark), id, workload, at.deadline, at.heartbeat);
    AllocatedRow(limits, q.rows, at.now, at.expiry, id);
    AllocateAddsNoRow(limits, q.rows, at.now, at.expiry);
  }

  /**
   How the first transaction of an `acquire` ends: with a lease for its workload until
   `expiry`, with a queue in which `maxQueued` others wait, with a place in the queue, or
   with settings that differ from the registered ones and no change at all.
   */
  lemma StartAnswers(limits: Limits, mark: LimiterSettings.Fingerprint, t: Table, id: Id, workload: string, at: P.Times)
    requires SeqsBelow(t) && id !in t.rows
    ensures var r := StartTxn(limits, mark, t, id, workload, at.deadline, at.now, at.expiry, at.heartbeat);
            if t.registered.Some? && t.registered.value != mark then r == (t, Mismatch)
            else Answered(limits, Passed(limits, mark, t, id, workload, at), id, r.0, r.1)
    ensures EntersAsAsked(Passed(limits, mark, t, id, workload, at).rows, id, workload, at)
    ensures Passed(limits, mark, t, id, workload, at).registered ==
            (if t.registered.None? then Some(mark) else t.registered)
  {
    PassedRow(limits, mark, t, id, workload, at);
    GrantedOrFullAnswers(limits, Passed(limits, mark, t, id, workload, at), id);
  }

  /** A release frees the slot it was asked to, whatever else the pass does. */
  lemma ReleaseFrees(limits: Limits, mark: LimiterSettings.Fingerprint, t: Table, id: Id, now: int, expiry: int)
    requires SeqsBelow(t) && (t.registered.None? || t.registered.value == mark)
    requires id in t.rows && t.rows[id].state.Granted?
    ensures id !in ReleaseTxn(limits, mark, t, id, now, expiry).rows
  {
    AllocateAddsNoRow(limits, t.rows - {id}, now, expiry);
  }

  /** A renewal extends a lease that has not run out to `expiry`, and does nothing else. */
  lemma RenewExtends(t: Table, id: Id, now: int, expiry: int)
    ensures var n := RenewTxn(t, id, now, expiry);
            if id in t.rows && t.rows[id].state.Granted? && t.rows[id].state.expiresAt > now
            then
              var row := Row(t.rows[id].workload, t.rows[id].number, Granted(expiry), t.rows[id].heartbeat);
              n == t.(rows := t.rows[id := row])
            else n == t
  {
  }

  // ----- why an `acquire` is rejected -----

  /** The wait limit of a call: both the caller's and the workload's, whichever is shorter. */
  lemma BeginSetsLimit(fleet: P.Fleet, w: P.World, id: Id, mark: LimiterSettings.Fingerprint, workload: Option<string>,
                       timeoutMs: Option<int>, aborted: bool)
    requires P.Possible(fleet, w, P.Begin(id, mark, workload, timeoutMs, aborted))
    ensures var name := if workload.Some? then workload else fleet[mark].defaultWorkload;
            var call := P.After(fleet, w, P.Begin(id, mark, workload, timeoutMs, aborted)).calls[id];
            if name.None? || name.value !in fleet[mark].workloads then call.phase == P.Rejected(P.BadConfig)
            else
              var maxWaitMs := fleet[mark].workloads[name.value].maxWaitMs;
              && call.workload == name.value
              && call.phase == (if aborted then P.Rejected(P.Aborted) else P.Starting)
              && (call.waitMs.None? <==> timeoutMs.None? && maxWaitMs.None?)
              && (call.waitMs.Some? ==> call.waitMs == timeoutMs || call.waitMs == maxWaitMs)
              && (timeoutMs.Some? ==> call.waitMs.value <= timeoutMs.value)
              && (maxWaitMs.Some? ==> call.waitMs.value <= maxWaitMs.value)
  {
  }

  predicate Gives(phase: P.Phase, why: P.Why) {
    phase == P.Rejected(why) || phase == P.Cancelling(why)
  }

  /** The reason why a step makes one call give up. */
  ghost predicate HasCause(fleet: P.Fleet, w: P.World, step: P.Step, n: P.World, id: Id, why: P.Why)
    requires id in w.calls && w.calls[id].mark in fleet
  {
    match why
    case Aborted => w.calls[id].aborted
    case BadConfig => w.table.registered.Some? && w.table.registered.value != w.calls[id].mark
    case QueueFull =>
      && step.Start? && step.id == id && id !in n.table.rows
      && fleet[w.calls[id].mark].maxQueued.Some?
      && CountWaiting(n.table.rows) >= fleet[w.calls[id].mark].maxQueued.value
    case TimedOut => step.Poll? && step.id == id && id in w.table.rows && id !in n.table.rows
    case Disappeared => step.Poll? && step.id == id && id !in n.table.rows
  }

  lemma StartHasCause(fleet: P.Fleet, w: P.World, id: Id, at: P.Times, why: P.Why)
    requires P.Possible(fleet, w, P.Start(id, at)) && w.calls[id].mark in fleet
    requires Gives(P.After(fleet, w, P.Start(id, at)).calls[id].phase, why)
    ensures HasCause(fleet, w, P.Start(id, at), P.After(fleet, w, P.Start(id, at)), id, why)
  {
    var c := w.calls[id];
    StartAnswers(fleet[c.mark], c.mark, w.table, id, c.workload, at);
  }

  /** What a poll answers, in terms of the rows its pass left behind. */
  lemma PollAnswers(limits: Limits, mark: LimiterSettings.Fingerprint, t: Table, id: Id, locked: bool, at: P.Times)
    requires SeqsBelow(t)
    ensures var r := PollTxn(limits, mark, t, id, locked, at.now, at.expiry, at.heartbeat);
            var rows := if locked then Allocated(limits, t.rows, at.now, at.expiry) else t.rows;
            if locked && t.registered.Some? && t.registered.value != mark then r == (t, PollMismatch)
            else (r.0.rows, r.1) == Checked(rows, id, at.now, at.heartbeat)
                 && r.0.registered == (if locked then Some(mark) else t.registered)
  {
  }

  /** What a poll does to the entry it is about, by its answer. */
  lemma PolledEntry(limits: Limits, mark: LimiterSettings.Fingerprint, t: Table, id: Id, locked: bool, at: P.Times)
    requires SeqsBelow(t)
    ensures var r := PollTxn(limits, mark, t, id, locked, at.now, at.expiry, at.heartbeat);
            match r.1
            case PollMismatch => t.registered.Some? && t.registered.value != mark
            case Gone => id !in r.0.rows
            case TimedOut => id in t.rows && id !in r.0.rows
            case _ => id in r.0.rows
  {
    var rows := if locked then Allocated(limits, t.rows, at.now, at.expiry) else t.rows;
    PollAnswers(limits, mark, t, id, locked, at);
    CheckedRow(rows, id, at.now, at.heartbeat);
    AllocateAddsNoRow(limits, t.rows, at.now, at.expiry);
  }

  lemma PollHasCause(fleet: P.Fleet, w: P.World, id: Id, locked: bool, at: P.Times, why: P.Why)
    requires P.Possible(fleet, w, P.Poll(id, locked, at)) && w.calls[id].mark in fleet
    requires Gives(P.After(fleet, w, P.Poll(id, locked, at)).calls[id].phase, why)
    ensures HasCause(fleet, w, P.Poll(id, locked, at), P.After(fleet, w, P.Poll(id, locked, at)), id, why)
  {
    var c := w.calls[id];
    PolledEntry(fleet[c.mark], c.mark, w.table, id, locked, at);
  }

  /**
   A call gives up only for a cause: its own abort, settings that differ from the
   registered ones, a queue that others fill, or an entry that a poll found expired or
   gone.
   */
  lemma RejectionHasCause(fleet: P.Fleet, w: P.World, step: P.Step, id: Id, why: P.Why)
    requires P.Possible(fleet, w, step) && id in w.calls && w.calls[id].mark in fleet
    requires !Gives(w.calls[id].phase, why) && Gives(P.After(fleet, w, step).calls[id].phase, why)
    ensures HasCause(fleet, w, step, P.After(fleet, w, step), id, why)
  {
    match step
    case Start(i, at) =>
      if i == id {
        StartHasCause(fleet, w, id, at, why);
      }
    case Poll(i, locked, at) =>
      if i == id {
        PollHasCause(fleet, w, id, locked, at, why);
      }
    case _ =>
  }

  /** What a call does with the answer of its first transaction. */
  lemma StartDecides(fleet: P.Fleet, w: P.World, id: Id, at: P.Times)
    requires P.Possible(fleet, w, P.Start(id, at)) && w.calls[id].mark in fleet
    ensures var c := w.calls[id];
            var phase := P.After(fleet, w, P.Start(id, at)).calls[id].phase;
            match StartTxn(fleet[c.mark], c.mark, w.table, id, c.workload, at.deadline, at.now, at.expiry,
                           at.heartbeat).1
            case Mismatch => phase == P.Rejected(P.BadConfig)
            case IsFull => phase == P.Rejected(P.QueueFull)
            case IsWaiting => phase == P.Polling
            case IsGranted => phase == if c.aborted then P.Cancelling(P.Aborted) else P.Leased
  {
  }

  /** What it does with the answer of a poll: an abort comes before everything but another wait. */
  lemma PollDecides(fleet: P.Fleet, w: P.World, id: Id, locked: bool, at: P.Times)
    requires P.Possible(fleet, w, P.Poll(id, locked, at)) && w.calls[id].mark in fleet
    ensures var c := w.calls[id];
            var phase := P.After(fleet, w, P.Poll(id, locked, at)).calls[id].phase;
            match PollTxn(fleet[c.mark], c.mark, w.table, id, locked, at.now, at.expiry, at.heartbeat).1
            case StillWaiting => phase == P.Polling
            case GotLease(_) => phase == if c.aborted then P.Cancelling(P.Aborted) else P.Leased
            case PollMismatch => phase == if c.aborted then P.Cancelling(P.Aborted) else P.Rejected(P.BadConfig)
            case TimedOut => phase == if c.aborted then P.Cancelling(P.Aborted) else P.Rejected(P.TimedOut)
            case Gone => phase == P.Cancelling(if c.aborted then P.Aborted else P.Disappeared)
  {
  }

  /** Once aborted, a call that has no lease yet never gets one. */
  lemma {:induction false} AbortedCallsGetNoLease(fleet: P.Fleet, w: P.World, steps: seq<P.Step>, end: P.World, id: Id)
    requires P.Run(fleet, w, steps, end) && id in w.calls && w.calls[id].aborted && w.calls[id].phase != P.Leased
    ensures id in end.calls && end.calls[id].aborted && end.calls[id].phase != P.Leased
    decreases steps
  {
    if steps != [] {
      AbortedCallStays(fleet, w, steps[0], id);
      AbortedCallsGetNoLease(fleet, P.After(fleet, w, steps[0]), steps[1..], end, id);
    }
  }

  lemma AbortedCallStays(fleet: P.Fleet, w: P.World, step: P.Step, id: Id)
    requires P.Possible(fleet, w, step) && id in w.calls && w.calls[id].aborted && w.calls[id].phase != P.Leased
    ensures var n := P.After(fleet, w, step); id in n.calls && n.calls[id].aborted && n.calls[id].phase != P.Leased
  {
  }

  lemma GrantedStartGetsTheLease(fleet: P.Fleet, w: P.World, id: Id, at: P.Times)
    requires P.Possible(fleet, w, P.Start(id, at)) && !w.calls[id].aborted && w.calls[id].mark in fleet
    requires w.table.registered.Some? ==> w.table.registered.value == w.calls[id].mark
    ensures var n := P.After(fleet, w, P.Start(id, at));
            n.calls[id].phase == P.Leased <==> IsGranted(n.table.rows, id)
  {
    var c := w.calls[id];
    StartAnswers(fleet[c.mark], c.mark, w.table, id, c.workload, at);
  }

  predicate IsGranted(rows: Rows, id: Id) {
    id in rows && rows[id].state.Granted?
  }

  lemma GrantedPollGetsTheLease(fleet: P.Fleet, w: P.World, id: Id, locked: bool, at: P.Times)
    requires P.Possible(fleet, w, P.Poll(id, locked, at)) && !w.calls[id].aborted && w.calls[id].mark in fleet
    requires w.table.registered.Some? ==> w.table.registered.value == w.calls[id].mark
    ensures var n := P.After(fleet, w, P.Poll(id, locked, at));
            n.calls[id].phase == P.Leased <==> IsGranted(n.table.rows, id)
  {
    var c := w.calls[id];
    PollAnswers(fleet[c.mark], c.mark, w.table, id, locked, at);
    var rows := if locked then Allocated(fleet[c.mark], w.table.rows, at.now, at.expiry) else w.table.rows;
    CheckedRow(rows, id, at.now, at.heartbeat);
  }

  /** The row behind a lease that a first transaction returned: it lasts a whole lease time. */
  lemma StartedLease(fleet: P.Fleet, w: P.World, id: Id, at: P.Times)
    requires P.Possible(fleet, w, P.Start(id, at)) && w.calls[id].mark in fleet
    requires P.InPhase(P.After(fleet, w, P.Start(id, at)), id, P.Leased)
    ensures var n := P.After(fleet, w, P.Start(id, at)).table.rows;
            IsGranted(n, id) && n[id].state.expiresAt == at.expiry
  {
    var c := w.calls[id];
    StartDecides(fleet, w, id, at);
    StartAnswers(fleet[c.mark], c.mark, w.table, id, c.workload, at);
  }

  /** The row behind a lease that a poll returned: it lasts as long as the poll said. */
  lemma PolledLease(fleet: P.Fleet, w: P.World, id: Id, locked: bool, at: P.Times)
    requires P.Possible(fleet, w, P.Poll(id, locked, at)) && w.calls[id].mark in fleet
    requires P.InPhase(P.After(fleet, w, P.Poll(id, locked, at)), id, P.Leased)
    ensures var n, mark := P.After(fleet, w, P.Poll(id, locked, at)).table.rows, w.calls[id].mark;
            var answer := PollTxn(fleet[mark], mark, w.table, id, locked, at.now, at.expiry, at.heartbeat).1;
            answer.GotLease? && IsGranted(n, id) && n[id].state.expiresAt - at.now == answer.ttlMs
  {
    var c := w.calls[id];
    PollDecides(fleet, w, id, locked, at);
    AnsweredLease(fleet[c.mark], c.mark, w.table, id, locked, at);
  }

  lemma AnsweredLease(limits: Limits, mark: LimiterSettings.Fingerprint, t: Table, id: Id, locked: bool, at: P.Times)
    requires SeqsBelow(t)
    ensures var r := PollTxn(limits, mark, t, id, locked, at.now, at.expiry, at.heartbeat);
            r.1.GotLease? ==> IsGranted(r.0.rows, id) && r.0.rows[id].state.expiresAt - at.now == r.1.ttlMs
  {
    var rows := if locked then Allocated(limits, t.rows, at.now, at.expiry) else t.rows;
    PollAnswers(limits, mark, t, id, locked, at);
    CheckedRow(rows, id, at.now, at.heartbeat);
  }

  /** A call whose entry is granted when its own transaction looks has its lease, unless it was aborted. */
  lemma GrantedCallsGetTheLease(fleet: P.Fleet, w: P.World, step: P.Step)
    requires P.Possible(fleet, w, step) && (step.Start? || step.Poll?) && !w.calls[step.id].aborted
    requires w.calls[step.id].mark in fleet
    requires w.table.registered.Some? ==> w.table.registered.value == w.calls[step.id].mark
    ensures var n := P.After(fleet, w, step);
            n.calls[step.id].phase == P.Leased <==> IsGranted(n.table.rows, step.id)
  {
    match step
    case Start(id, at) => GrantedStartGetsTheLease(fleet, w, id, at);
    case Poll(id, locked, at) => GrantedPollGetsTheLease(fleet, w, id, locked, at);
  }

  // ----- a wait limit takes effect when it has passed -----

  /** The deadlines that first transactions have set, and the times at which transactions ran. */
  ghost predicate SetDeadline(steps: seq<P.Step>, id: Id, deadline: int) {
    exists i :: 0 <= i < |steps| && steps[i].Start? && steps[i].id == id && steps[i].times.deadline == Some(deadline)
  }

  function NowOf(step: P.Step): Option<int> {
    match step
    case Start(_, times) => Some(times.now)
    case Poll(_, _, times) => Some(times.now)
    case CancelEntry(_, times) => Some(times.now)
    case ReleaseLease(_, times) => Some(times.now)
    case _ => None
  }

  ghost predicate RanAtOrAfter(steps: seq<P.Step>, moment: int) {
    exists j :: 0 <= j < |steps| && NowOf(steps[j]).Some? && NowOf(steps[j]).value >= moment
  }

  /** The wait limit of the call has passed. */
  ghost predicate LimitPassed(steps: seq<P.Step>, id: Id) {
    exists deadline :: SetDeadline(steps, id, deadline) && RanAtOrAfter(steps, deadline)
  }

  /** A waiting row has the deadline it was given, and an expired one had it passed. */
  ghost predicate RowExplained(steps: seq<P.Step>, id: Id, state: RowState) {
    match state
    case Waiting(deadline) => deadline.Some? ==> SetDeadline(steps, id, deadline.value)
    case Granted(_) => true
    case Expired => LimitPassed(steps, id)
  }

  ghost predicate Explained(steps: seq<P.Step>, w: P.World) {
    && (forall id :: id in w.table.rows ==> RowExplained(steps, id, w.table.rows[id].state))
    && (forall id :: id in w.calls && Gives(w.calls[id].phase, P.TimedOut) ==> LimitPassed(steps, id))
  }

  /** A row's state comes from the one before, or a deadline has passed. */
  predicate StateFollows(before: RowState, after: RowState, now: int) {
    match after
    case Waiting(_) => after == before
    case Granted(_) => true
    case Expired => before.Expired? || (before.Waiting? && before.deadline.Some? && before.deadline.value <= now)
  }

  ghost predicate RowsFollow(rows: Rows, n: Rows, now: int) {
    forall id :: id in n ==> id in rows && StateFollows(rows[id].state, n[id].state, now)
  }

  lemma AllocatedFollows(limits: Limits, rows: Rows, now: int, expiry: int)
    requires DistinctSeqs(rows)
    ensures RowsFollow(rows, Allocated(limits, rows, now, expiry), now)
  {
    AllocateAddsNoRow(limits, rows, now, expiry);
    forall id | id in Allocated(limits, rows, now, expiry)
      ensures StateFollows(rows[id].state, Allocated(limits, rows, now, expiry)[id].state, now)
    {
      AllocatedRow(limits, rows, now, expiry, id);
    }
  }

  lemma MoreStepsExplain(steps: seq<P.Step>, step: P.Step, id: Id, before: RowState, after: RowState, now: int)
    requires RowExplained(steps, id, before) && StateFollows(before, after, now)
    requires after.Expired? && !before.Expired? ==> NowOf(step) == Some(now)
    ensures RowExplained(steps + [step], id, after)
  {
    var all := steps + [step];
    forall d | SetDeadline(steps, id, d) ensures SetDeadline(all, id, d) {
      var i :| 0 <= i < |steps| && steps[i].Start? && steps[i].id == id && steps[i].times.deadline == Some(d);
      assert all[i] == steps[i];
    }
    if before.Expired? {
      LimitStaysPassed(steps, step, id);
    } else if after.Expired? {
      assert all[|steps|] == step;
      assert SetDeadline(all, id, before.deadline.value) && RanAtOrAfter(all, before.deadline.value);
    }
  }

  lemma LimitStaysPassed(steps: seq<P.Step>, step: P.Step, id: Id)
    requires LimitPassed(steps, id)
    ensures LimitPassed(steps + [step], id)
  {
    var all := steps + [step];
    var d :| SetDeadline(steps, id, d) && RanAtOrAfter(steps, d);
    var i :| 0 <= i < |steps| && steps[i].Start? && steps[i].id == id && steps[i].times.deadline == Some(d);
    var j :| 0 <= j < |steps| && NowOf(steps[j]).Some? && NowOf(steps[j]).value >= d;
    assert all[i] == steps[i] && all[j] == steps[j];
    assert SetDeadline(all, id, d) && RanAtOrAfter(all, d);
  }

  lemma CheckedFollows(rows: Rows, n: Rows, id: Id, now: int, heartbeat: int)
    requires RowsFollow(rows, n, now)
    ensures RowsFollow(rows, Checked(n, id, now, heartbeat).0, now)
  {
    CheckedRow(n, id, now, heartbeat);
  }

  lemma FollowsWithout(rows: Rows, id: Id, n: Rows, now: int)
    requires RowsFollow(rows - {id}, n, now)
    ensures RowsFollow(rows, n, now)
  {
  }

  lemma RowsFollowThemselves(rows: Rows, now: int)
    ensures RowsFollow(rows, rows, now)
  {
  }

  /** The rows after a poll, a cancellation or a release. */
  lemma TransactionFollows(fleet: P.Fleet, w: P.World, step: P.Step)
    requires P.Possible(fleet, w, step) && (step.Poll? || step.CancelEntry? || step.ReleaseLease?)
    ensures RowsFollow(w.table.rows, P.After(fleet, w, step).table.rows, NowOf(step).value)
  {
    var c, rows := w.calls[step.id], w.table.rows;
    var limits := fleet[c.mark];
    AllocatedFollows(limits, rows, step.times.now, step.times.expiry);
    AllocatedFollows(limits, rows - {step.id}, step.times.now, step.times.expiry);
    RowsFollowThemselves(rows, step.times.now);
    RowsFollowThemselves(rows - {step.id}, step.times.now);
    FollowsWithout(rows, step.id, rows - {step.id}, step.times.now);
    FollowsWithout(rows, step.id, Allocated(limits, rows - {step.id}, step.times.now, step.times.expiry),
                   step.times.now);
    match step
    case Poll(id, locked, at) =>
      PollAnswers(limits, c.mark, w.table, id, locked, at);
      var passed := if locked then Allocated(limits, rows, at.now, at.expiry) else rows;
      CheckedFollows(rows, passed, id, at.now, at.heartbeat);
    case _ =>
  }

  lemma RowsStayExplained(steps: seq<P.Step>, step: P.Step, rows: Rows, n: Rows)
    requires forall id :: id in rows ==> RowExplained(steps, id, rows[id].state)
    requires NowOf(step).Some? && RowsFollow(rows, n, NowOf(step).value)
    ensures forall id :: id in n ==> RowExplained(steps + [step], id, n[id].state)
  {
    forall id | id in n ensures RowExplained(steps + [step], id, n[id].state) {
      MoreStepsExplain(steps, step, id, rows[id].state, n[id].state, NowOf(step).value);
    }
  }

  lemma SameRowsStayExplained(steps: seq<P.Step>, step: P.Step, rows: Rows, n: Rows)
    requires forall id :: id in rows ==> RowExplained(steps, id, rows[id].state)
    requires forall id :: id in n ==> id in rows && (n[id].state == rows[id].state || n[id].state.Granted?)
    ensures forall id :: id in n ==> RowExplained(steps + [step], id, n[id].state)
  {
    forall id | id in n ensures RowExplained(steps + [step], id, n[id].state) {
      MoreStepsExplain(steps, step, id, rows[id].state, n[id].state, 0);
    }
  }

  lemma StartFollows(fleet: P.Fleet, w: P.World, id: Id, at: P.Times)
    requires P.Possible(fleet, w, P.Start(id, at))
    ensures var n := P.After(fleet, w, P.Start(id, at)).table.rows;
            n == w.table.rows
            || exists row: Row :: row.state == Waiting(at.deadline) && RowsFollow(w.table.rows[id := row], n, at.now)
  {
    var c := w.calls[id];
    var limits := fleet[c.mark];
    StartAnswers(limits, c.mark, w.table, id, c.workload, at);
    if w.table.registered.None? || w.table.registered.value == c.mark {
      var q := Inserted(Registered(w.table, c.mark), id, c.workload, at.deadline, at.heartbeat);
      InsertedSeqs(Registered(w.table, c.mark), id, c.workload, at.deadline, at.heartbeat);
      AllocatedFollows(limits, q.rows, at.now, at.expiry);
      assert q.rows == w.table.rows[id := q.rows[id]];
    }
  }

  lemma StartStaysExplained(fleet: P.Fleet, steps: seq<P.Step>, w: P.World, id: Id, at: P.Times)
    requires P.Possible(fleet, w, P.Start(id, at))
    requires forall i :: i in w.table.rows ==> RowExplained(steps, i, w.table.rows[i].state)
    ensures var n := P.After(fleet, w, P.Start(id, at)).table.rows;
            forall i :: i in n ==> RowExplained(steps + [P.Start(id, at)], i, n[i].state)
  {
    var step := P.Start(id, at);
    var rows, n := w.table.rows, P.After(fleet, w, step).table.rows;
    StartFollows(fleet, w, id, at);
    if n == rows {
      SameRowsStayExplained(steps, step, rows, n);
    } else {
      var row: Row :| row.state == Waiting(at.deadline) && RowsFollow(rows[id := row], n, at.now);
      forall i | i in n ensures RowExplained(steps + [step], i, n[i].state) {
        if i == id {
          NewRowExplained(steps, step, n[i].state);
        } else {
          MoreStepsExplain(steps, step, i, rows[i].state, n[i].state, at.now);
        }
      }
    }
  }

  lemma NewRowExplained(steps: seq<P.Step>, step: P.Step, state: RowState)
    requires step.Start? && StateFollows(Waiting(step.times.deadline), state, step.times.now)
    ensures RowExplained(steps + [step], step.id, state)
  {
    var all := steps + [step];
    assert all[|steps|] == step;
    if step.times.deadline.Some? {
      assert SetDeadline(all, step.id, step.times.deadline.value);
      if state.Expired? {
        assert RanAtOrAfter(all, step.times.deadline.value);
      }
    }
  }

  lemma RowsExplainedAfter(fleet: P.Fleet, steps: seq<P.Step>, w: P.World, step: P.Step)
    requires P.Possible(fleet, w, step) && Explained(steps, w)
    ensures var n := P.After(fleet, w, step).table.rows;
            forall i :: i in n ==> RowExplained(steps + [step], i, n[i].state)
  {
    var n := P.After(fleet, w, step).table.rows;
    match step
    case Start(id, at) => StartStaysExplained(fleet, steps, w, id, at);
    case RenewLease(id, at) => SameRowsStayExplained(steps, step, w.table.rows, n);
    case Begin(_, _, _, _, _) => SameRowsStayExplained(steps, step, w.table.rows, n);
    case Abort(_) => SameRowsStayExplained(steps, step, w.table.rows, n);
    case WakeAborted(_) => SameRowsStayExplained(steps, step, w.table.rows, n);
    case _ =>
      TransactionFollows(fleet, w, step);
      RowsStayExplained(steps, step, w.table.rows, n);
  }

  /** A call times out only when a poll has found its entry expired. */
  lemma TimedOutCall(fleet: P.Fleet, w: P.World, step: P.Step, id: Id)
    requires P.Possible(fleet, w, step) && id in P.After(fleet, w, step).calls
    requires Gives(P.After(fleet, w, step).calls[id].phase, P.TimedOut)
    requires !(id in w.calls && Gives(w.calls[id].phase, P.TimedOut))
    ensures step.Poll? && step.id == id
    ensures var rows := if step.locked
                        then Allocated(fleet[w.calls[id].mark], w.table.rows, step.times.now, step.times.expiry)
                        else w.table.rows;
            id in rows && rows[id].state.Expired?
  {
    if step.Poll? && step.id == id {
      var c := w.calls[id];
      PollAnswers(fleet[c.mark], c.mark, w.table, id, step.locked, step.times);
    }
  }

  lemma StepExplained(fleet: P.Fleet, steps: seq<P.Step>, w: P.World, step: P.Step)
    requires P.Possible(fleet, w, step) && Explained(steps, w)
    ensures Explained(steps + [step], P.After(fleet, w, step))
  {
    var n := P.After(fleet, w, step);
    RowsExplainedAfter(fleet, steps, w, step);
    forall id | id in n.calls && Gives(n.calls[id].phase, P.TimedOut) ensures LimitPassed(steps + [step], id) {
      if id in w.calls && Gives(w.calls[id].phase, P.TimedOut) {
        LimitStaysPassed(steps, step, id);
      } else {
        TimedOutCall(fleet, w, step, id);
        PolledRowExplained(fleet, steps, w, step);
      }
    }
  }

  lemma PolledRowExplained(fleet: P.Fleet, steps: seq<P.Step>, w: P.World, step: P.Step)
    requires P.Possible(fleet, w, step) && Explained(steps, w) && step.Poll?
    ensures var rows := if step.locked
                        then Allocated(fleet[w.calls[step.id].mark], w.table.rows, step.times.now, step.times.expiry)
                        else w.table.rows;
            step.id in rows && rows[step.id].state.Expired? ==> LimitPassed(steps + [step], step.id)
  {
    AllocatedFollows(fleet[w.calls[step.id].mark], w.table.rows, step.times.now, step.times.expiry);
    RowsFollowThemselves(w.table.rows, step.times.now);
    var rows := if step.locked
                then Allocated(fleet[w.calls[step.id].mark], w.table.rows, step.times.now, step.times.expiry)
                else w.table.rows;
    RowsStayExplained(steps, step, w.table.rows, rows);
  }

  lemma {:induction false} RunExplained(fleet: P.Fleet, before: seq<P.Step>, w: P.World, steps: seq<P.Step>,
                                        end: P.World)
    requires Explained(before, w) && P.Run(fleet, w, steps, end)
    ensures Explained(before + steps, end)
    decreases steps
  {
    if steps == [] {
      assert before + steps == before;
    } else {
      StepExplained(fleet, before, w, steps[0]);
      RunExplained(fleet, before + [steps[0]], P.After(fleet, w, steps[0]), steps[1..], end);
      assert before + [steps[0]] + steps[1..] == before + steps;
    }
  }

  /**
   In every run of any number of workers: an `acquire` is rejected as timed out only if its
   first transaction set a deadline, its own start plus its wait limit, and some
   transaction ran at or after it. Without a limit it never times out.
   */
  lemma TimesOutOnlyAfterItsDeadline(fleet: P.Fleet, steps: seq<P.Step>, end: P.World, id: Id)
    requires P.Run(fleet, P.EMPTY_WORLD, steps, end)
    requires id in end.calls && end.calls[id].phase == P.Rejected(P.TimedOut)
    ensures exists deadline :: SetDeadline(steps, id, deadline) && RanAtOrAfter(steps, deadline)
  {
    RunExplained(fleet, [], P.EMPTY_WORLD, steps, end);
    assert [] + steps == steps;
    assert LimitPassed(steps, id);
  }

  /** That deadline is the start of the transaction plus the wait limit of the call. */
  lemma DeadlineIsStartPlusLimit(fleet: P.Fleet, w: P.World, id: Id, at: P.Times)
    requires P.Possible(fleet, w, P.Start(id, at))
    ensures match w.calls[id].waitMs
            case None => at.deadline == None
            case Some(limitMs) => at.deadline == Some(at.now + limitMs)
  {
  }
}
