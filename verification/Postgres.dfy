/**
 The Postgres limiter's table and its transactions (concurrency-postgres/src/index.ts).
 Every transaction is one atomic step with its own `now`, the start of that
 transaction; these readings need not be ordered like the commits. `expiry` and
 `heartbeat` are `now` plus the lease and queue-entry lifetimes of the worker.
 */
module Postgres {
  import opened Prelude
  import opened Policy
  import opened Allocator
  import opened LimiterSettings

  /** The `state` column with the time columns that are meaningful in that state. */
  datatype RowState = Waiting(deadline: Option<int>) | Granted(expiresAt: int) | Expired

  datatype Row = Row(workload: string, number: int, state: RowState, heartbeat: int)

  type Rows = map<Id, Row>

  /** The entries of one limiter and its registered fingerprint. */
  datatype Table = Table(rows: Rows, nextSeq: int, registered: Option<Fingerprint>)

  // ----- what the rows mean -----

  ghost predicate ListsWaiting(rows: Rows, m: map<Id, Ticket>) {
    && m.Keys == (set id | id in rows && rows[id].state.Waiting?)
    && forall id :: id in m ==> m[id] == Ticket(rows[id].workload, rows[id].number)
  }

  ghost predicate ListsGranted(rows: Rows, m: map<Id, Slot>) {
    && m.Keys == (set id | id in rows && rows[id].state.Granted?)
    && forall id :: id in m ==> m[id] == Slot(rows[id].workload, rows[id].state.expiresAt)
  }

  /** The queue the table holds. */
  ghost function WaitingOf(rows: Rows): (m: map<Id, Ticket>)
    ensures ListsWaiting(rows, m)
  {
    var all := map id | id in rows && rows[id].state.Waiting? :: Ticket(rows[id].workload, rows[id].number);
    assert ListsWaiting(rows, all);
    var m :| ListsWaiting(rows, m);
    m
  }

  /** The slots the table holds. */
  ghost function GrantedOf(rows: Rows): (m: map<Id, Slot>)
    ensures ListsGranted(rows, m)
  {
    var all := map id | id in rows && rows[id].state.Granted? :: Slot(rows[id].workload, rows[id].state.expiresAt);
    assert ListsGranted(rows, all);
    var m :| ListsGranted(rows, m);
    m
  }

  ghost function Abs(rows: Rows): State {
    State(WaitingOf(rows), GrantedOf(rows))
  }

  // ----- the statements of `allocate` -----

  function Stale(rows: Rows, now: int): set<Id> {
    set id | id in rows && rows[id].state.Granted? && rows[id].state.expiresAt <= now
  }

  function WithoutStale(rows: Rows, now: int): Rows {
    rows - Stale(rows, now)
  }

  function WithoutSilent(rows: Rows, now: int): Rows {
    rows - set id | id in rows && !rows[id].state.Granted? && rows[id].heartbeat <= now
  }

  predicate PastDeadline(row: Row, now: int) {
    row.state.Waiting? && row.state.deadline.Some? && row.state.deadline.value <= now
  }

  function WithExpired(rows: Rows, now: int): Rows {
    map id | id in rows :: if PastDeadline(rows[id], now) then rows[id].(state := Expired) else rows[id]
  }

  function Purged(rows: Rows, now: int): Rows {
    WithExpired(WithoutSilent(WithoutStale(rows, now), now), now)
  }

  function Granting(rows: Rows, ids: set<Id>, expiry: int): Rows {
    map id | id in rows ::
      if id in ids && rows[id].state.Waiting? then rows[id].(state := Granted(expiry)) else rows[id]
  }

  /** Distinct sequence numbers: `seq` is a serial column. */
  ghost predicate DistinctSeqs(rows: Rows)
    ensures DistinctSeqs(rows) ==> DistinctTickets(Queue(WaitingOf(rows)))
  {
    forall i, j :: i in rows && j in rows && rows[i].number == rows[j].number ==> i == j
  }

  ghost function Grantees(limits: Limits, rows: Rows): set<Id>
    requires DistinctSeqs(rows)
  {
    Elems(Ids(Grants(limits, ActiveOf(limits, GrantedOf(rows)), Queue(WaitingOf(rows)))))
  }

  lemma PurgedSeqs(rows: Rows, now: int)
    requires DistinctSeqs(rows)
    ensures DistinctSeqs(Purged(rows, now))
  {
  }

  ghost function Allocated(limits: Limits, rows: Rows, now: int, expiry: int): Rows
    requires DistinctSeqs(rows)
  {
    PurgedSeqs(rows, now);
    var p := Purged(rows, now);
    Granting(p, Grantees(limits, p), expiry)
  }

  // ----- transactions -----

  /** `lockLimiter` with `onConflict: 'reject'`. */
  function Registered(t: Table, mark: Fingerprint): Table {
    if t.registered.None? then t.(registered := Some(mark)) else t
  }

  predicate Accepts(t: Table, mark: Fingerprint) {
    t.registered.None? || t.registered.value == mark
  }

  datatype Started = IsGranted | IsFull | IsWaiting | Mismatch

  ghost function CountWaiting(rows: Rows): nat {
    |WaitingOf(rows)|
  }

  function Inserted(t: Table, id: Id, workload: string, deadline: Option<int>, heartbeat: int): Table {
    t.(rows := t.rows[id := Row(workload, t.nextSeq, Waiting(deadline), heartbeat)], nextSeq := t.nextSeq + 1)
  }

  /** Every row got its sequence number from the counter. */
  ghost predicate SeqsBelow(t: Table) {
    DistinctSeqs(t.rows) && forall id :: id in t.rows ==> t.rows[id].number < t.nextSeq
  }

  lemma InsertedSeqs(t: Table, id: Id, workload: string, deadline: Option<int>, heartbeat: int)
    requires SeqsBelow(t) && id !in t.rows
    ensures SeqsBelow(Inserted(t, id, workload, deadline, heartbeat))
  {
  }

  ghost function AllocatedTable(limits: Limits, t: Table, now: int, expiry: int): Table
    requires DistinctSeqs(t.rows)
  {
    t.(rows := Allocated(limits, t.rows, now, expiry))
  }

  /** How the first transaction ends once the pass has run. */
  ghost function GrantedOrFull(limits: Limits, n: Table, id: Id): (Table, Started) {
    if id in n.rows && n.rows[id].state.Granted? then (n, IsGranted)
    else if limits.maxQueued.Some? && CountWaiting(n.rows) > limits.maxQueued.value then
      (n.(rows := n.rows - {id}), IsFull)
    else (n, IsWaiting)
  }

  /** The first transaction of `acquire`. */
  ghost function StartTxn(limits: Limits, mark: Fingerprint, t: Table, id: Id, workload: string, deadline: Option<int>,
                          now: int, expiry: int, heartbeat: int): (Table, Started)
    requires SeqsBelow(t) && id !in t.rows
  {
    if !Accepts(t, mark) then (t, Mismatch)
    else
      InsertedSeqs(Registered(t, mark), id, workload, deadline, heartbeat);
      var n := AllocatedTable(limits, Inserted(Registered(t, mark), id, workload, deadline, heartbeat), now, expiry);
      GrantedOrFull(limits, n, id)
  }

  datatype Polled = Gone | StillWaiting | GotLease(ttlMs: int) | TimedOut | PollMismatch

  /** The second half of a poll, which needs no lock: heartbeat, read the state, drop an expired entry. */
  function Checked(rows: Rows, id: Id, now: int, heartbeat: int): (Rows, Polled) {
    if id !in rows then (rows, Gone)
    else match rows[id].state
      case Waiting(_) => (rows[id := rows[id].(heartbeat := heartbeat)], StillWaiting)
      case Granted(expiresAt) => (rows[id := rows[id].(heartbeat := heartbeat)], GotLease(expiresAt - now))
      case Expired => (rows - {id}, TimedOut)
  }

  /** One poll; `locked` says whether `FOR UPDATE SKIP LOCKED` returned the limiter's row. */
  ghost function PollTxn(limits: Limits, mark: Fingerprint, t: Table, id: Id, locked: bool,
                         now: int, expiry: int, heartbeat: int): (Table, Polled)
    requires SeqsBelow(t)
  {
    if locked && !Accepts(t, mark) then (t, PollMismatch)
    else
      var rows := if locked then Allocated(limits, t.rows, now, expiry) else t.rows;
      var checked := Checked(rows, id, now, heartbeat);
      ((if locked then Registered(t, mark) else t).(rows := checked.0), checked.1)
  }

  /** `cancelEntry`. */
  ghost function CancelTxn(limits: Limits, mark: Fingerprint, t: Table, id: Id, now: int, expiry: int): Table
    requires SeqsBelow(t)
  {
    if !Accepts(t, mark) then t
    else
      var n := Registered(t, mark).(rows := t.rows - {id});
      if id in t.rows && t.rows[id].state.Granted? then AllocatedTable(limits, n, now, expiry) else n
  }

  ghost function RenewTxn(t: Table, id: Id, now: int, expiry: int): Table {
    if id in t.rows && t.rows[id].state.Granted? && t.rows[id].state.expiresAt > now
    then t.(rows := t.rows[id := t.rows[id].(state := Granted(expiry))]) else t
  }

  ghost function ReleaseTxn(limits: Limits, mark: Fingerprint, t: Table, id: Id, now: int, expiry: int): Table
    requires SeqsBelow(t)
  {
    if !Accepts(t, mark) then t
    else
      var rows := if id in t.rows && t.rows[id].state.Granted? then t.rows - {id} else t.rows;
      AllocatedTable(limits, Registered(t, mark).(rows := rows), now, expiry)
  }

  // ----- the table invariant -----

  ghost predicate Inv(limits: Limits, t: Table) {
    && SeqsBelow(t)
    && Allocator.Inv(limits, Abs(t.rows))
    && NobodyWaitsInVain(limits, Abs(t.rows))
  }

  /** As `Inv`, but a pass may be due. */
  ghost predicate Core(limits: Limits, rows: Rows) {
    DistinctSeqs(rows) && Allocator.Inv(limits, Abs(rows))
  }

  lemma WithoutStaleRows(rows: Rows, now: int)
    ensures Abs(WithoutStale(rows, now)) == State(WaitingOf(rows), GrantedOf(rows) - Stale(rows, now))
    ensures DistinctSeqs(rows) ==> DistinctSeqs(WithoutStale(rows, now))
  {
  }

  lemma WithoutStaleIsAbstract(limits: Limits, rows: Rows, now: int)
    requires Core(limits, rows)
    ensures Core(limits, WithoutStale(rows, now)) && Reaches(limits, Abs(rows), Abs(WithoutStale(rows, now)))
  {
    WithoutStaleRows(rows, now);
    ReachesStep(limits, Abs(rows), Expire(Stale(rows, now), now), Abs(WithoutStale(rows, now)));
  }

  function SilentWaiting(rows: Rows, now: int): set<Id> {
    set id | id in rows && rows[id].state.Waiting? && rows[id].heartbeat <= now
  }

  lemma WithoutSilentRows(rows: Rows, now: int)
    ensures Abs(WithoutSilent(rows, now)) == State(WaitingOf(rows) - SilentWaiting(rows, now), GrantedOf(rows))
    ensures DistinctSeqs(rows) ==> DistinctSeqs(WithoutSilent(rows, now))
  {
  }

  lemma WithoutSilentIsAbstract(limits: Limits, rows: Rows, now: int)
    requires Core(limits, rows)
    ensures Core(limits, WithoutSilent(rows, now)) && Reaches(limits, Abs(rows), Abs(WithoutSilent(rows, now)))
  {
    WithoutSilentRows(rows, now);
    ReachesStep(limits, Abs(rows), Cancel(SilentWaiting(rows, now)), Abs(WithoutSilent(rows, now)));
  }

  lemma WithExpiredRows(rows: Rows, now: int)
    ensures Abs(WithExpired(rows, now))
         == State(WaitingOf(rows) - (set id | id in rows && PastDeadline(rows[id], now)), GrantedOf(rows))
    ensures DistinctSeqs(rows) ==> DistinctSeqs(WithExpired(rows, now))
  {
  }

  lemma WithExpiredIsAbstract(limits: Limits, rows: Rows, now: int)
    requires Core(limits, rows)
    ensures Core(limits, WithExpired(rows, now)) && Reaches(limits, Abs(rows), Abs(WithExpired(rows, now)))
  {
    WithExpiredRows(rows, now);
    ReachesStep(limits, Abs(rows), Cancel(set id | id in rows && PastDeadline(rows[id], now)),
                Abs(WithExpired(rows, now)));
  }

  lemma PurgedIsAbstract(limits: Limits, rows: Rows, now: int)
    requires Core(limits, rows)
    ensures Core(limits, Purged(rows, now)) && Reaches(limits, Abs(rows), Abs(Purged(rows, now)))
  {
    var a := WithoutStale(rows, now);
    var b := WithoutSilent(a, now);
    WithoutStaleIsAbstract(limits, rows, now);
    WithoutSilentIsAbstract(limits, a, now);
    WithExpiredIsAbstract(limits, b, now);
    ReachesTransitive(limits, Abs(rows), Abs(a), Abs(b));
    ReachesTransitive(limits, Abs(rows), Abs(b), Abs(Purged(rows, now)));
  }

  lemma GrantingFirst(rows: Rows, x: Id, others: set<Id>, expiry: int)
    requires x in rows && rows[x].state.Waiting?
    ensures Granting(rows, {x} + others, expiry) == Granting(Granting(rows, {x}, expiry), others, expiry)
    ensures GrantedOf(Granting(rows, {x}, expiry)) == GrantedOf(rows)[x := Slot(rows[x].workload, expiry)]
  {
  }

  /** Handing each grantee a slot under its own id is what the update statement does. */
  lemma {:induction false} GrantingIsAddGrants(rows: Rows, grants: seq<Waiter>, expiry: int)
    requires NoDuplicates(Ids(grants))
    requires forall x :: x in grants ==> x.id in rows && rows[x.id].state.Waiting? && rows[x.id].workload == x.workload
    ensures GrantedOf(Granting(rows, Elems(Ids(grants)), expiry)) ==
            AddGrants(GrantedOf(rows), grants, Ids(grants), expiry)
    decreases grants
  {
    if grants == [] {
      assert GrantedOf(Granting(rows, Elems(Ids(grants)), expiry)) == GrantedOf(rows);
    } else {
      IdsTail(grants);
      GrantingIsAddGrants(Granting(rows, {grants[0].id}, expiry), grants[1..], expiry);
      GrantingFirst(rows, grants[0].id, Elems(Ids(grants[1..])), expiry);
    }
  }

  lemma GrantingIsPass(rows: Rows, grants: seq<Waiter>, expiry: int)
    requires NoDuplicates(Ids(grants))
    requires forall x :: x in grants ==> x.id in WaitingOf(rows) && x.workload == WaitingOf(rows)[x.id].workload
    ensures Abs(Granting(rows, Elems(Ids(grants)), expiry))
         == State(WaitingOf(rows) - Elems(Ids(grants)), AddGrants(GrantedOf(rows), grants, Ids(grants), expiry))
    ensures DistinctSeqs(rows) ==> DistinctSeqs(Granting(rows, Elems(Ids(grants)), expiry))
    ensures forall id :: id in Ids(grants) ==> id !in GrantedOf(rows)
  {
    GrantingIsAddGrants(rows, grants, expiry);
    assert WaitingOf(Granting(rows, Elems(Ids(grants)), expiry)) == WaitingOf(rows) - Elems(Ids(grants));
    forall id | id in Ids(grants) ensures id !in GrantedOf(rows) {
      var k :| 0 <= k < |grants| && Ids(grants)[k] == id;
      assert grants[k] in grants;
    }
  }

  lemma PassIsAllocate(limits: Limits, p: Rows, expiry: int)
    requires Core(limits, p)
    ensures var n := Granting(p, Grantees(limits, p), expiry);
            && Core(limits, n)
            && NobodyWaitsInVain(limits, Abs(n))
            && Reaches(limits, Abs(p), Abs(n))
  {
    var grants := PassGrants(limits, Abs(p));
    GrantsAreQueued(limits, ActiveOf(limits, GrantedOf(p)), WaitingOf(p));
    GrantingIsPass(p, grants, expiry);
    AllocateLeavesNobody(limits, Abs(p), Ids(grants), expiry, Abs(Granting(p, Grantees(limits, p), expiry)));
  }

  /** `allocate`, from any sound rows. */
  lemma AllocateIsAbstract(limits: Limits, rows: Rows, now: int, expiry: int)
    requires Core(limits, rows)
    ensures var n := Allocated(limits, rows, now, expiry);
            Core(limits, n) && NobodyWaitsInVain(limits, Abs(n)) && Reaches(limits, Abs(rows), Abs(n))
  {
    PurgedIsAbstract(limits, rows, now);
    PassIsAllocate(limits, Purged(rows, now), expiry);
    ReachesTransitive(limits, Abs(rows), Abs(Purged(rows, now)), Abs(Allocated(limits, rows, now, expiry)));
  }

  // ----- every transaction keeps the table sound and takes only abstract steps -----

  lemma AllocatedSeqs(limits: Limits, t: Table, now: int, expiry: int)
    requires SeqsBelow(t)
    ensures SeqsBelow(AllocatedTable(limits, t, now, expiry))
    ensures AllocatedTable(limits, t, now, expiry).rows.Keys <= t.rows.Keys
  {
  }

  lemma AllocateKeepsInv(limits: Limits, t: Table, now: int, expiry: int)
    requires SeqsBelow(t) && Core(limits, t.rows)
    ensures Inv(limits, AllocatedTable(limits, t, now, expiry))
    ensures Reaches(limits, Abs(t.rows), Abs(AllocatedTable(limits, t, now, expiry).rows))
  {
    AllocateIsAbstract(limits, t.rows, now, expiry);
    AllocatedSeqs(limits, t, now, expiry);
  }

  lemma InsertedRows(t: Table, id: Id, workload: string, deadline: Option<int>, heartbeat: int)
    requires id !in t.rows
    ensures Abs(Inserted(t, id, workload, deadline, heartbeat).rows)
         == State(WaitingOf(t.rows)[id := Ticket(workload, t.nextSeq)], GrantedOf(t.rows))
  {
  }

  lemma InsertIsEnqueue(limits: Limits, t: Table, id: Id, workload: string, deadline: Option<int>, heartbeat: int)
    requires SeqsBelow(t) && Core(limits, t.rows) && id !in t.rows && workload in limits.workloads
    ensures Core(limits, Inserted(t, id, workload, deadline, heartbeat).rows)
    ensures Reaches(limits, Abs(t.rows), Abs(Inserted(t, id, workload, deadline, heartbeat).rows))
  {
    InsertedRows(t, id, workload, deadline, heartbeat);
    ReachesStep(limits, Abs(t.rows), Enqueue(id, workload, t.nextSeq),
                Abs(Inserted(t, id, workload, deadline, heartbeat).rows));
  }

  lemma DeletedWaitingRows(rows: Rows, id: Id)
    requires !(id in rows && rows[id].state.Granted?)
    ensures Abs(rows - {id}) == State(WaitingOf(rows) - ({id} * WaitingOf(rows).Keys), GrantedOf(rows))
  {
  }

  /** Taking a row out of the queue needs no new pass. */
  lemma DeleteWaitingIsCancel(limits: Limits, t: Table, id: Id)
    requires Inv(limits, t) && !(id in t.rows && t.rows[id].state.Granted?)
    ensures Inv(limits, t.(rows := t.rows - {id}))
    ensures Reaches(limits, Abs(t.rows), Abs(t.rows - {id}))
  {
    DeletedWaitingRows(t.rows, id);
    ReachesStep(limits, Abs(t.rows), Cancel({id} * WaitingOf(t.rows).Keys), Abs(t.rows - {id}));
  }

  lemma DeletedGrantedRows(rows: Rows, id: Id)
    requires id in rows && rows[id].state.Granted?
    ensures Abs(rows - {id}) == State(WaitingOf(rows), GrantedOf(rows) - {id})
  {
  }

  lemma DeleteGrantedIsRelease(limits: Limits, rows: Rows, id: Id)
    requires Core(limits, rows) && id in rows && rows[id].state.Granted?
    ensures Core(limits, rows - {id}) && Reaches(limits, Abs(rows), Abs(rows - {id}))
  {
    DeletedGrantedRows(rows, id);
    ReachesStep(limits, Abs(rows), Release({id}), Abs(rows - {id}));
  }

  lemma InsertAndAllocate(limits: Limits, t: Table, id: Id, workload: string, deadline: Option<int>,
                          now: int, expiry: int, heartbeat: int)
    requires Inv(limits, t) && id !in t.rows && workload in limits.workloads
    ensures SeqsBelow(Inserted(t, id, workload, deadline, heartbeat))
    ensures var n := AllocatedTable(limits, Inserted(t, id, workload, deadline, heartbeat), now, expiry);
            Inv(limits, n) && Reaches(limits, Abs(t.rows), Abs(n.rows))
  {
    var inserted := Inserted(t, id, workload, deadline, heartbeat);
    InsertIsEnqueue(limits, t, id, workload, deadline, heartbeat);
    InsertedSeqs(t, id, workload, deadline, heartbeat);
    AllocateKeepsInv(limits, inserted, now, expiry);
    ReachesTransitive(limits, Abs(t.rows), Abs(inserted.rows), Abs(AllocatedTable(limits, inserted, now, expiry).rows));
  }

  lemma GrantedOrFullIsSound(limits: Limits, n: Table, id: Id)
    requires Inv(limits, n)
    ensures var end := GrantedOrFull(limits, n, id).0;
            Inv(limits, end) && Reaches(limits, Abs(n.rows), Abs(end.rows))
  {
    ReachesSelf(limits, Abs(n.rows));
    if !(id in n.rows && n.rows[id].state.Granted?) {
      DeleteWaitingIsCancel(limits, n, id);
    }
  }

  lemma StartIsSound(limits: Limits, mark: Fingerprint, t: Table, id: Id, workload: string, deadline: Option<int>,
                     now: int, expiry: int, heartbeat: int)
    requires Inv(limits, t) && id !in t.rows && workload in limits.workloads
    ensures var n := StartTxn(limits, mark, t, id, workload, deadline, now, expiry, heartbeat).0;
            Inv(limits, n) && Reaches(limits, Abs(t.rows), Abs(n.rows))
  {
    if Accepts(t, mark) {
      var r := Registered(t, mark);
      var n := AllocatedTable(limits, Inserted(r, id, workload, deadline, heartbeat), now, expiry);
      InsertAndAllocate(limits, r, id, workload, deadline, now, expiry, heartbeat);
      GrantedOrFullIsSound(limits, n, id);
      ReachesTransitive(limits, Abs(t.rows), Abs(n.rows), Abs(GrantedOrFull(limits, n, id).0.rows));
    } else {
      ReachesSelf(limits, Abs(t.rows));
    }
  }

  lemma HeartbeatIsInvisible(rows: Rows, id: Id, heartbeat: int)
    requires id in rows
    ensures Abs(rows[id := rows[id].(heartbeat := heartbeat)]) == Abs(rows)
  {
    var n := rows[id := rows[id].(heartbeat := heartbeat)];
    assert WaitingOf(n) == WaitingOf(rows) && GrantedOf(n) == GrantedOf(rows);
  }

  lemma CheckIsSound(limits: Limits, t: Table, id: Id, now: int, heartbeat: int)
    requires Inv(limits, t)
    ensures var rows := Checked(t.rows, id, now, heartbeat).0;
            Inv(limits, t.(rows := rows)) && Reaches(limits, Abs(t.rows), Abs(rows))
  {
    ReachesSelf(limits, Abs(t.rows));
    if id !in t.rows {
      assert t.(rows := t.rows) == t;
    } else if t.rows[id].state.Expired? {
      DeleteWaitingIsCancel(limits, t, id);
    } else {
      HeartbeatIsInvisible(t.rows, id, heartbeat);
      assert Checked(t.rows, id, now, heartbeat).0 == t.rows[id := t.rows[id].(heartbeat := heartbeat)];
    }
  }

  /** A poll, with or without the limiter's lock. */
  lemma PollIsSound(limits: Limits, mark: Fingerprint, t: Table, id: Id, locked: bool, now: int, expiry: int,
                    heartbeat: int)
    requires Inv(limits, t)
    ensures var n := PollTxn(limits, mark, t, id, locked, now, expiry, heartbeat).0;
            Inv(limits, n) && Reaches(limits, Abs(t.rows), Abs(n.rows))
  {
    var n := PollTxn(limits, mark, t, id, locked, now, expiry, heartbeat).0;
    if locked && !Accepts(t, mark) {
      ReachesSelf(limits, Abs(t.rows));
    } else if !locked {
      CheckIsSound(limits, t, id, now, heartbeat);
    } else {
      var mid := AllocatedTable(limits, Registered(t, mark), now, expiry);
      AllocateKeepsInv(limits, Registered(t, mark), now, expiry);
      CheckIsSound(limits, mid, id, now, heartbeat);
      assert n == mid.(rows := Checked(mid.rows, id, now, heartbeat).0);
      ReachesTransitive(limits, Abs(t.rows), Abs(mid.rows), Abs(n.rows));
    }
  }

  lemma CancelIsSound(limits: Limits, mark: Fingerprint, t: Table, id: Id, now: int, expiry: int)
    requires Inv(limits, t)
    ensures var n := CancelTxn(limits, mark, t, id, now, expiry);
            Inv(limits, n) && Reaches(limits, Abs(t.rows), Abs(n.rows))
  {
    if !Accepts(t, mark) {
      ReachesSelf(limits, Abs(t.rows));
    } else if id in t.rows && t.rows[id].state.Granted? {
      DeleteGrantedIsRelease(limits, t.rows, id);
      AllocateKeepsInv(limits, Registered(t, mark).(rows := t.rows - {id}), now, expiry);
      ReachesTransitive(limits, Abs(t.rows), Abs(t.rows - {id}), Abs(Allocated(limits, t.rows - {id}, now, expiry)));
    } else {
      DeleteWaitingIsCancel(limits, t, id);
    }
  }

  lemma ExtendedRows(rows: Rows, id: Id, expiry: int)
    requires id in rows && rows[id].state.Granted?
    ensures var n := rows[id := rows[id].(state := Granted(expiry))];
            Abs(n) == State(WaitingOf(rows), GrantedOf(rows)[id := Slot(rows[id].workload, expiry)])
  {
    var n := rows[id := rows[id].(state := Granted(expiry))];
    assert WaitingOf(n) == WaitingOf(rows);
    assert GrantedOf(n) == GrantedOf(rows)[id := Slot(rows[id].workload, expiry)];
  }

  lemma ExtendIsRenew(limits: Limits, rows: Rows, id: Id, now: int, expiry: int)
    requires Core(limits, rows) && NobodyWaitsInVain(limits, Abs(rows))
    requires id in rows && rows[id].state.Granted? && rows[id].state.expiresAt > now
    ensures var n := rows[id := rows[id].(state := Granted(expiry))];
            Core(limits, n) && NobodyWaitsInVain(limits, Abs(n)) && Reaches(limits, Abs(rows), Abs(n))
  {
    ExtendedRows(rows, id, expiry);
    ReachesStep(limits, Abs(rows), Renew(id, now, expiry), Abs(rows[id := rows[id].(state := Granted(expiry))]));
    RenewSlot(limits, GrantedOf(rows), id, expiry);
  }

  /** A renewal runs without the lock, at any time. */
  lemma RenewIsSound(limits: Limits, t: Table, id: Id, now: int, expiry: int)
    requires Inv(limits, t)
    ensures Inv(limits, RenewTxn(t, id, now, expiry)) &&
            Reaches(limits, Abs(t.rows), Abs(RenewTxn(t, id, now, expiry).rows))
  {
    if id in t.rows && t.rows[id].state.Granted? && t.rows[id].state.expiresAt > now {
      ExtendIsRenew(limits, t.rows, id, now, expiry);
    } else {
      ReachesSelf(limits, Abs(t.rows));
    }
  }

  lemma ReleaseIsSound(limits: Limits, mark: Fingerprint, t: Table, id: Id, now: int, expiry: int)
    requires Inv(limits, t)
    ensures var n := ReleaseTxn(limits, mark, t, id, now, expiry);
            Inv(limits, n) && Reaches(limits, Abs(t.rows), Abs(n.rows))
  {
    ReachesSelf(limits, Abs(t.rows));
    if Accepts(t, mark) {
      var rows := if id in t.rows && t.rows[id].state.Granted? then t.rows - {id} else t.rows;
      if rows != t.rows {
        DeleteGrantedIsRelease(limits, t.rows, id);
      }
      AllocateKeepsInv(limits, Registered(t, mark).(rows := rows), now, expiry);
      ReachesTransitive(limits, Abs(t.rows), Abs(rows), Abs(Allocated(limits, rows, now, expiry)));
    }
  }
}

/**
 The transactions as the source writes them: statement after statement on the
 entries table, each shown to have the effect module Postgres gives it.
 */
module PostgresTransactions {
  import opened Prelude
  import opened Policy
  import opened PolicyTheorems
  import opened Allocator
  import opened LimiterSettings
  import opened MemoryLimiterClass
  import P = Postgres

  // ----- the two queries of `allocate` -----

  function GrantedIn(rows: P.Rows, workload: string): set<Id> {
    set id | id in rows && rows[id].state.Granted? && rows[id].workload == workload
  }

  /** `SELECT workload, count(*) ... GROUP BY workload` over the granted rows. */
  function CountGranted(rows: P.Rows): map<string, nat> {
    map w | w in (set id | id in rows && rows[id].state.Granted? :: rows[id].workload) :: |GrantedIn(rows, w)|
  }

  lemma CountGrantedIsActive(limits: Limits, rows: P.Rows)
    requires KnownSlots(limits, P.GrantedOf(rows))
    ensures SameCounts(CountGranted(rows), ActiveOf(limits, P.GrantedOf(rows)))
  {
    var granted := P.GrantedOf(rows);
    forall w ensures Active(CountGranted(rows), w) == Active(ActiveOf(limits, granted), w) {
      ActiveIsHeld(limits, granted, w);
      assert Held(granted, w) == GrantedIn(rows, w);
      if w !in CountGranted(rows) {
        assert GrantedIn(rows, w) == {};
      }
    }
  }

  function WaitingAhead(rows: P.Rows, id: Id): set<Id>
    requires id in rows
  {
    set j | j in rows && rows[j].state.Waiting? && rows[j].workload == rows[id].workload &&
      rows[j].number < rows[id].number
  }

  /** The ids with `row_number() OVER (PARTITION BY workload ORDER BY seq) <= limit` among the waiting rows. */
  function FirstWaiting(rows: P.Rows, limit: int): set<Id> {
    set id | id in rows && rows[id].state.Waiting? && |WaitingAhead(rows, id)| < limit
  }

  function AsWaiter(rows: P.Rows, id: Id): Waiter
    requires id in rows
  {
    Waiter(id, rows[id].workload, rows[id].number)
  }

  ghost function AsWaiters(rows: P.Rows, ids: set<Id>): set<Waiter>
    requires ids <= rows.Keys
  {
    set id | id in ids :: AsWaiter(rows, id)
  }

  lemma AsWaitersMember(rows: P.Rows, ids: set<Id>, x: Waiter)
    requires ids <= rows.Keys
    ensures x in AsWaiters(rows, ids) <==> x.id in ids && x == AsWaiter(rows, x.id)
  {
  }

  lemma {:induction false} AsWaitersSize(rows: P.Rows, ids: set<Id>)
    requires ids <= rows.Keys
    ensures |AsWaiters(rows, ids)| == |ids|
    decreases |ids|
  {
    if ids != {} {
      var id :| id in ids;
      AsWaitersSize(rows, ids - {id});
      AsWaitersMember(rows, ids - {id}, AsWaiter(rows, id));
      assert AsWaiters(rows, ids) == AsWaiters(rows, ids - {id}) + {AsWaiter(rows, id)};
    }
  }

  lemma QueueMember(rows: P.Rows, x: Waiter)
    ensures x in Queue(P.WaitingOf(rows)) <==> x.id in rows && rows[x.id].state.Waiting? && x == AsWaiter(rows, x.id)
  {
    if x.id in P.WaitingOf(rows) {
      assert P.WaitingOf(rows)[x.id] == Ticket(rows[x.id].workload, rows[x.id].number);
    }
  }

  lemma AheadSize(rows: P.Rows, id: Id)
    requires id in rows
    ensures |WaitingAhead(rows, id)| == |Ahead(Queue(P.WaitingOf(rows)), AsWaiter(rows, id))|
  {
    forall x
      ensures x in Ahead(Queue(P.WaitingOf(rows)), AsWaiter(rows, id)) <==> x in AsWaiters(rows, WaitingAhead(rows, id))
    {
      QueueMember(rows, x);
      AsWaitersMember(rows, WaitingAhead(rows, id), x);
    }
    assert Ahead(Queue(P.WaitingOf(rows)), AsWaiter(rows, id)) == AsWaiters(rows, WaitingAhead(rows, id));
    AsWaitersSize(rows, WaitingAhead(rows, id));
  }

  lemma FirstWaitingIsFirst(rows: P.Rows, limit: int)
    ensures AsWaiters(rows, FirstWaiting(rows, limit)) == FirstPerWorkload(Queue(P.WaitingOf(rows)), limit)
  {
    forall x
      ensures x in AsWaiters(rows, FirstWaiting(rows, limit)) <==>
              x in FirstPerWorkload(Queue(P.WaitingOf(rows)), limit)
    {
      QueueMember(rows, x);
      AsWaitersMember(rows, FirstWaiting(rows, limit), x);
      if x.id in rows {
        AheadSize(rows, x.id);
      }
    }
  }

  ghost predicate DistinctListed(s: seq<Waiter>) {
    forall i, j :: 0 <= i < j < |s| ==> s[i].ticket != s[j].ticket
  }

  lemma ListOneMore(rows: P.Rows, done: set<Id>, listed: seq<Waiter>, id: Id)
    requires done <= rows.Keys && id in rows && id !in done && P.DistinctSeqs(rows)
    requires Elems(listed) == AsWaiters(rows, done)
    requires DistinctListed(listed)
    ensures Elems(listed + [AsWaiter(rows, id)]) == AsWaiters(rows, done + {id})
    ensures DistinctListed(listed + [AsWaiter(rows, id)])
  {
    forall k | 0 <= k < |listed| ensures listed[k].ticket != rows[id].number {
      assert listed[k] in Elems(listed);
      AsWaitersMember(rows, done, listed[k]);
    }
    assert Elems(listed + [AsWaiter(rows, id)]) == Elems(listed) + {AsWaiter(rows, id)};
    assert AsWaiters(rows, done + {id}) == AsWaiters(rows, done) + {AsWaiter(rows, id)};
  }

  /** `SELECT id, workload, seq ... WHERE rn <= limit ORDER BY seq`. */
  method QueryWaiting(rows: P.Rows, limit: int) returns (listed: seq<Waiter>)
    requires P.DistinctSeqs(rows)
    ensures ByTicket(listed) && Elems(listed) == FirstPerWorkload(Queue(P.WaitingOf(rows)), limit)
  {
    var pending := FirstWaiting(rows, limit);
    ghost var all := pending;
    assert all - pending == {};
    listed := [];
    while pending != {}
      invariant pending <= all
      invariant DistinctListed(listed)
      invariant Elems(listed) == AsWaiters(rows, all - pending)
      decreases |pending|
    {
      var id :| id in pending;
      ListOneMore(rows, all - pending, listed, id);
      assert all - (pending - {id}) == (all - pending) + {id};
      listed := listed + [AsWaiter(rows, id)];
      pending := pending - {id};
    }
    assert all - pending == all;
    FirstWaitingIsFirst(rows, limit);
    listed := SortByTicket(listed);
  }

  lemma FullGrantsNothing(limits: Limits, active: map<string, nat>, s: seq<Waiter>)
    requires Total(active) >= limits.maxConcurrent
    ensures Sweep(limits, active, s) == []
  {
    forall i | 0 <= i < |s| ensures !Admissible(limits, active, s[i].workload) {
      UnmetNonNegative(limits, active, s[i].workload);
    }
    SweepSkips(limits, active, s, |s|);
  }

  /** What the queries return determines the same grants as the whole table. */
  lemma QueriesSuffice(limits: Limits, rows: P.Rows, active: map<string, nat>, listed: set<Waiter>)
    requires Readable(limits, rows)
    requires active == CountGranted(rows)
    requires listed == FirstPerWorkload(Queue(P.WaitingOf(rows)), limits.maxConcurrent)
    ensures DistinctTickets(listed)
    ensures Elems(Ids(Grants(limits, active, listed))) == P.Grantees(limits, rows)
    ensures Total(active) >= limits.maxConcurrent ==> P.Grantees(limits, rows) == {}
  {
    var whole := ActiveOf(limits, P.GrantedOf(rows));
    CountGrantedIsActive(limits, rows);
    SweepSame(limits, active, whole, Ranked(limits, Known(limits, listed)));
    TruncatedQueueGivesSameGrants(limits, whole, Queue(P.WaitingOf(rows)));
    if Total(active) >= limits.maxConcurrent {
      FullGrantsNothing(limits, active, Ranked(limits, Known(limits, listed)));
    }
  }

  lemma GrantingNobody(rows: P.Rows, expiry: int)
    ensures P.Granting(rows, {}, expiry) == rows
  {
  }

  lemma UpdateThenDelete(rows: P.Rows, id: Id, row: P.Row)
    ensures rows[id := row] - {id} == rows - {id}
  {
  }

  lemma WaitingCount(rows: P.Rows)
    ensures P.CountWaiting(rows) == |set i | i in rows && rows[i].state.Waiting?|
  {
    assert P.WaitingOf(rows).Keys == set i | i in rows && rows[i].state.Waiting?;
    assert |P.WaitingOf(rows)| == |P.WaitingOf(rows).Keys|;
  }

  /** What a pass needs of the rows. */
  ghost predicate Readable(limits: Limits, rows: P.Rows) {
    P.DistinctSeqs(rows) && KnownSlots(limits, P.GrantedOf(rows))
  }

  /** Rows of which each granted one was granted before, for the same workload. */
  ghost predicate NoNewGrants(more: P.Rows, less: P.Rows) {
    forall id :: id in less && less[id].state.Granted? ==>
      id in more && more[id].state.Granted? && more[id].workload == less[id].workload
  }

  lemma StillKnown(limits: Limits, more: P.Rows, less: P.Rows)
    requires KnownSlots(limits, P.GrantedOf(more)) && NoNewGrants(more, less)
    ensures KnownSlots(limits, P.GrantedOf(less))
  {
    forall id | id in P.GrantedOf(less) ensures Serves(limits, P.GrantedOf(less)[id].workload) {
      assert Serves(limits, P.GrantedOf(more)[id].workload);
    }
  }

  lemma PurgedIsReadable(limits: Limits, rows: P.Rows, now: int)
    requires Readable(limits, rows)
    ensures Readable(limits, P.Purged(rows, now))
  {
    P.PurgedSeqs(rows, now);
    StillKnown(limits, rows, P.Purged(rows, now));
  }

  lemma GranteesWait(limits: Limits, rows: P.Rows)
    requires P.DistinctSeqs(rows)
    ensures P.Grantees(limits, rows) <= P.WaitingOf(rows).Keys
  {
    var grants := Grants(limits, ActiveOf(limits, P.GrantedOf(rows)), Queue(P.WaitingOf(rows)));
    GrantsAreQueued(limits, ActiveOf(limits, P.GrantedOf(rows)), P.WaitingOf(rows));
    forall id | id in Ids(grants) ensures id in P.WaitingOf(rows) {
      var k :| 0 <= k < |grants| && Ids(grants)[k] == id;
      assert grants[k] in grants;
    }
  }

  /** The ids `allocate` returns are the entries that were waiting and now are granted. */
  lemma GranteeIsGranted(limits: Limits, rows: P.Rows, now: int, expiry: int, id: Id)
    requires P.DistinctSeqs(rows) && P.DistinctSeqs(P.Purged(rows, now))
    requires id in rows && rows[id].state.Waiting?
    ensures var n := P.Allocated(limits, rows, now, expiry);
            id in P.Grantees(limits, P.Purged(rows, now)) <==> id in n && n[id].state.Granted?
  {
    GranteesWait(limits, P.Purged(rows, now));
  }

  class EntriesTable {
    var rows: P.Rows
    var nextSeq: int
    var registered: Option<Fingerprint>

    ghost function View(): P.Table
      reads this
    {
      P.Table(rows, nextSeq, registered)
    }

    constructor ()
      ensures View() == P.Table(map[], 0, None)
    {
      rows, nextSeq, registered := map[], 0, None;
    }

    /** `lockLimiter`; false stands for the configuration error, which rolls the transaction back. */
    method LockLimiter(mark: Fingerprint) returns (ok: bool)
      modifies this`registered
      ensures ok <==> P.Accepts(old(View()), mark)
      ensures View() == if ok then P.Registered(old(View()), mark) else old(View())
    {
      if registered.None? {
        registered := Some(mark);
      }
      ok := registered.value == mark;
    }

    method Allocate(limits: Limits, names: seq<string>, now: int, expiry: int) returns (granted: set<Id>)
      requires Readable(limits, rows) && Lists(names, limits.workloads.Keys)
      modifies this`rows
      ensures View() == P.AllocatedTable(limits, old(View()), now, expiry)
      ensures P.DistinctSeqs(P.Purged(old(rows), now))
      ensures granted == P.Grantees(limits, P.Purged(old(rows), now))
    {
      Purge(now);
      PurgedIsReadable(limits, old(rows), now);
      granted := Pass(limits, names, expiry);
    }

    /** The three statements that open `allocate`. */
    method Purge(now: int)
      modifies this`rows
      ensures View() == old(View()).(rows := P.Purged(old(rows), now))
    {
      rows := rows - set id | id in rows && rows[id].state.Granted? && rows[id].state.expiresAt <= now;
      rows := rows - set id | id in rows && !rows[id].state.Granted? && rows[id].heartbeat <= now;
      rows := map id | id in rows :: if P.PastDeadline(rows[id], now) then rows[id].(state := P.Expired) else rows[id];
    }

    /** The rest: count, read the heads of the queues, grant. */
    method Pass(limits: Limits, names: seq<string>, expiry: int) returns (granted: set<Id>)
      requires Readable(limits, rows) && Lists(names, limits.workloads.Keys)
      modifies this`rows
      ensures granted == P.Grantees(limits, old(rows))
      ensures View() == old(View()).(rows := P.Granting(old(rows), granted, expiry))
    {
      var active, total := CopyActive(CountGranted(rows));
      QueriesSuffice(limits, rows, active, FirstPerWorkload(Queue(P.WaitingOf(rows)), limits.maxConcurrent));
      GrantingNobody(rows, expiry);
      if total >= limits.maxConcurrent {
        return {};
      }
      var waiting := QueryWaiting(rows, limits.maxConcurrent);
      var grants := SelectGrants(limits, names, active, waiting);
      granted := set id | id in grants;
      assert granted == Elems(grants);
      if grants == [] {
        return;
      }
      Update(granted, expiry);
    }

    /** The `UPDATE ... SET state = 'granted'` statement. */
    method Update(ids: set<Id>, expiry: int)
      modifies this`rows
      ensures rows == P.Granting(old(rows), ids, expiry)
    {
      rows := map id | id in rows ::
        if id in ids && rows[id].state.Waiting? then rows[id].(state := P.Granted(expiry)) else rows[id];
    }

    /** Delete the entry with this id, if any. */
    method Delete(id: Id)
      modifies this`rows
      ensures View() == old(View()).(rows := old(rows) - {id})
    {
      rows := rows - {id};
    }

    /** The rest of the first transaction of `acquire`, once it holds the lock. */
    method InsertAndAllocate(limits: Limits, names: seq<string>, id: Id, workload: string, deadline: Option<int>,
                             now: int, expiry: int, heartbeat: int)
      returns (included: bool)
      requires P.SeqsBelow(View()) && Readable(limits, rows) && Lists(names, limits.workloads.Keys)
      requires id !in rows
      modifies this`rows, this`nextSeq
      ensures P.SeqsBelow(P.Inserted(old(View()), id, workload, deadline, heartbeat))
      ensures View() == P.AllocatedTable(limits, P.Inserted(old(View()), id, workload, deadline, heartbeat), now,
                                         expiry)
      ensures included <==> id in rows && rows[id].state.Granted?
    {
      P.InsertedSeqs(View(), id, workload, deadline, heartbeat);
      rows, nextSeq := rows[id := P.Row(workload, nextSeq, P.Waiting(deadline), heartbeat)], nextSeq + 1;
      ghost var inserted := rows;
      StillKnown(limits, old(rows), rows);
      var granted := Allocate(limits, names, now, expiry);
      GranteeIsGranted(limits, inserted, now, expiry, id);
      included := id in granted;
    }

    /** The first transaction of `acquire`. */
    method Start(limits: Limits, names: seq<string>, mark: Fingerprint, id: Id, workload: string, deadline: Option<int>,
                 now: int, expiry: int, heartbeat: int)
      returns (r: P.Started)
      requires P.SeqsBelow(View()) && Readable(limits, rows) && Lists(names, limits.workloads.Keys)
      requires id !in rows
      modifies this
      ensures (View(), r) == P.StartTxn(limits, mark, old(View()), id, workload, deadline, now, expiry, heartbeat)
    {
      var ok := LockLimiter(mark);
      if !ok {
        return P.Mismatch;
      }
      var included := InsertAndAllocate(limits, names, id, workload, deadline, now, expiry, heartbeat);
      if included {
        return P.IsGranted;
      }
      var queued := |set i | i in rows && rows[i].state.Waiting?|;
      WaitingCount(rows);
      if limits.maxQueued.Some? && queued > limits.maxQueued.value {
        Delete(id);
        return P.IsFull;
      }
      return P.IsWaiting;
    }

    /** The statements of a poll that need no lock. */
    method CheckEntry(id: Id, now: int, heartbeat: int) returns (r: P.Polled)
      modifies this`rows
      ensures (rows, r) == P.Checked(old(rows), id, now, heartbeat)
    {
      if id !in rows {
        return P.Gone;
      }
      UpdateThenDelete(rows, id, rows[id].(heartbeat := heartbeat));
      rows := rows[id := rows[id].(heartbeat := heartbeat)];
      match rows[id].state {
        case Waiting(_) => return P.StillWaiting;
        case Granted(expiresAt) => return P.GotLease(expiresAt - now);
        case Expired =>
          Delete(id);
          return P.TimedOut;
      }
    }

    /** One poll of a queued entry. */
    method Poll(limits: Limits, names: seq<string>, mark: Fingerprint, id: Id, skipped: bool,
                now: int, expiry: int, heartbeat: int)
      returns (r: P.Polled)
      requires P.SeqsBelow(View()) && Readable(limits, rows) && Lists(names, limits.workloads.Keys)
      modifies this
      ensures (View(), r) == P.PollTxn(limits, mark, old(View()), id, !skipped, now, expiry, heartbeat)
    {
      if !skipped {
        var ok := LockLimiter(mark);
        if !ok {
          return P.PollMismatch;
        }
        var _ := Allocate(limits, names, now, expiry);
      }
      r := CheckEntry(id, now, heartbeat);
    }

    /** `cancelEntry`. */
    method Cancel(limits: Limits, names: seq<string>, mark: Fingerprint, id: Id, now: int, expiry: int)
      requires P.SeqsBelow(View()) && Readable(limits, rows) && Lists(names, limits.workloads.Keys)
      modifies this
      ensures View() == P.CancelTxn(limits, mark, old(View()), id, now, expiry)
    {
      var ok := LockLimiter(mark);
      if !ok {
        return;
      }
      var wasGranted := id in rows && rows[id].state.Granted?;
      Delete(id);
      StillKnown(limits, old(rows), rows);
      if wasGranted {
        var _ := Allocate(limits, names, now, expiry);
      }
    }

    method Renew(id: Id, now: int, expiry: int) returns (renewed: bool)
      modifies this`rows
      ensures View() == P.RenewTxn(old(View()), id, now, expiry)
      ensures renewed <==> id in old(rows) && old(rows[id].state).Granted? && old(rows[id].state).expiresAt > now
    {
      renewed := id in rows && rows[id].state.Granted? && rows[id].state.expiresAt > now;
      if renewed {
        rows := rows[id := rows[id].(state := P.Granted(expiry))];
      }
    }

    method Release(limits: Limits, names: seq<string>, mark: Fingerprint, id: Id, now: int, expiry: int)
      requires P.SeqsBelow(View()) && Readable(limits, rows) && Lists(names, limits.workloads.Keys)
      modifies this
      ensures View() == P.ReleaseTxn(limits, mark, old(View()), id, now, expiry)
    {
      var ok := LockLimiter(mark);
      if !ok {
        return;
      }
      if id in rows && rows[id].state.Granted? {
        Delete(id);
      }
      StillKnown(limits, old(rows), rows);
      var _ := Allocate(limits, names, now, expiry);
    }
  }
}
