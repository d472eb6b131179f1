/**
 Runs that start runs. A run asks the limiter for a slot for each provider request,
 gives the slot back when the response has ended, and only then executes its tools,
 which may start child runs (pi-provider-gate.ts, runtime.ts). All of them share one
 in-memory limiter; provider requests end, and leases are renewed while they last.
 */
module NestedRuns {
  import opened Prelude
  import opened Sums
  import opened Policy
  import opened PolicyTheorems
  import opened Allocator
  import M = MemoryLimiter

  type RunId = nat

  /** What a run does next: a provider request, or tools that run child agents and are awaited together. */
  datatype Act = Ask | Start(children: set<RunId>)

  datatype Program = Program(workload: string, acts: seq<Act>)

  type Programs = map<RunId, Program>

  datatype Status =
    | Ready(todo: seq<Act>)
    | Asking(promise: Id, todo: seq<Act>)
    | Calling(slot: Id, todo: seq<Act>)
    | Nested(children: set<RunId>, todo: seq<Act>)
    | Finished

  datatype World = World(m: M.Mem, clock: int, runs: map<RunId, Status>)

  /**
   Children come after their parent, so runs form a forest; every used workload leaves room next to
   the others' reservations.
   */
  ghost predicate WellFormed(limits: Limits, programs: Programs) {
    && Policy.Valid(limits)
    && (forall r :: r in programs ==> Runnable(limits, programs[r].workload) && ActsOk(programs, r, programs[r].acts))
  }

  ghost predicate Runnable(limits: Limits, w: string) {
    w in limits.workloads && limits.workloads[w].maxConcurrent >= 1 && OthersReserved(limits, w) < limits.maxConcurrent
  }

  predicate ActsOk(programs: Programs, r: RunId, acts: seq<Act>) {
    forall i :: 0 <= i < |acts| && acts[i].Start? ==> ChildrenOk(programs, r, acts[i].children)
  }

  predicate ChildrenOk(programs: Programs, r: RunId, children: set<RunId>) {
    forall c :: c in children ==> c in programs && c > r
  }

  // ----- steps -----

  datatype Step =
    | Proceed(run: RunId, now: int, expiry: int)   // a ready run does its next act, or ends
    | Settle(run: RunId)                           // the promise of its acquire call has settled
    | Respond(run: RunId, now: int, expiry: int)   // the provider's response has ended
    | Join(run: RunId)                             // all its children have finished
    | Background(event: M.Event, now: int, expiry: int)   // timers, renewals, aborts

  predicate Enabled(w: World, step: Step) {
    match step
    case Proceed(r, now, _) => w.clock <= now && r in w.runs && w.runs[r].Ready?
    case Settle(r) => r in w.runs && w.runs[r].Asking? && w.runs[r].promise in w.m.outcomes
    case Respond(r, now, _) => w.clock <= now && r in w.runs && w.runs[r].Calling?
    case Join(r) => r in w.runs && w.runs[r].Nested? && AllFinished(w.runs, w.runs[r].children)
    case Background(e, now, _) => w.clock <= now && !e.Acquire? && !e.Release?
  }

  predicate AllFinished(runs: map<RunId, Status>, children: set<RunId>) {
    forall c :: c in children ==> c in runs && runs[c].Finished?
  }

  function StatusOf(outcome: M.Outcome, todo: seq<Act>): Status {
    match outcome
    case Leased(slot, _, _) => Calling(slot, todo)
    case Refused(_) => Finished
  }

  function WithChildren(programs: Programs, runs: map<RunId, Status>, children: set<RunId>): map<RunId, Status>
    requires forall c :: c in children ==> c in programs
  {
    runs + map c | c in children - runs.Keys :: Ready(programs[c].acts)
  }

  ghost function Next(limits: Limits, programs: Programs, w: World, step: Step): World
    requires Enabled(w, step) && M.TicketsBelow(w.m) && RunsKnown(programs, w.runs)
  {
    match step
    case Proceed(r, now, expiry) =>
      assert KnownStatus(programs, r, w.runs[r]);
      var todo := w.runs[r].todo;
      if todo == [] then w.(clock := now, runs := w.runs[r := Finished])
      else if todo[0].Ask? then
        World(M.After(limits, w.m, M.Acquire(Some(programs[r].workload), false, None), now, expiry), now,
              w.runs[r := Asking(w.m.nextId, todo[1..])])
      else w.(clock := now,
              runs := WithChildren(programs, w.runs[r := Nested(todo[0].children, todo[1..])], todo[0].children))
    case Settle(r) => w.(runs := w.runs[r := StatusOf(w.m.outcomes[w.runs[r].promise], w.runs[r].todo)])
    case Respond(r, now, expiry) =>
      World(M.After(limits, w.m, M.Release(w.runs[r].slot), now, expiry), now, w.runs[r := Ready(w.runs[r].todo)])
    case Join(r) => w.(runs := w.runs[r := Ready(w.runs[r].todo)])
    case Background(e, now, expiry) => World(M.After(limits, w.m, e, now, expiry), now, w.runs)
  }

  // ----- the invariant -----

  predicate KnownStatus(programs: Programs, r: RunId, s: Status) {
    && r in programs
    && (s.Finished? || ActsOk(programs, r, s.todo))
    && (s.Nested? ==> ChildrenOk(programs, r, s.children))
  }

  ghost predicate RunsKnown(programs: Programs, runs: map<RunId, Status>) {
    forall r :: r in runs ==> KnownStatus(programs, r, runs[r])
  }

  /** Children that are awaited exist. */
  ghost predicate ChildrenExist(runs: map<RunId, Status>) {
    forall r :: r in runs && runs[r].Nested? ==> runs[r].children <= runs.Keys
  }

  /** The acquire call belongs to a run that waits for it, or to one whose request holds the slot it got. */
  predicate Serves(m: M.Mem, s: Status, p: Id) {
    || (s.Asking? && s.promise == p)
    || (s.Calling? && p in m.outcomes && m.outcomes[p].Leased? && m.outcomes[p].slot == s.slot)
  }

  ghost predicate Attached(m: M.Mem, runs: map<RunId, Status>, p: Id) {
    exists r :: r in runs && Serves(m, runs[r], p)
  }

  /** The acquire call is still queued, or holds a slot. */
  predicate Open(m: M.Mem, p: Id) {
    p in m.waiters || (p in m.outcomes && m.outcomes[p].Leased? && m.outcomes[p].slot in m.slots)
  }

  /** No run holds or awaits a slot for anything but a provider request of its own. */
  ghost predicate NoStraySlots(m: M.Mem, runs: map<RunId, Status>) {
    forall p :: Open(m, p) ==> Attached(m, runs, p)
  }

  ghost predicate PromisesKnown(m: M.Mem, runs: map<RunId, Status>) {
    forall r :: r in runs ==>
      && (runs[r].Asking? ==> runs[r].promise in m.waiters || runs[r].promise in m.outcomes)
      && (runs[r].Calling? ==> runs[r].slot < m.nextId)
  }

  ghost predicate WaitersRunnable(limits: Limits, m: M.Mem) {
    forall p :: p in m.waiters ==> Runnable(limits, m.waiters[p].workload)
  }

  ghost predicate LimiterSound(limits: Limits, w: World) {
    M.Inv(limits, w.m, w.clock) && M.Bookkeeping(w.m) && WaitersRunnable(limits, w.m)
  }

  ghost predicate Inv(limits: Limits, programs: Programs, w: World) {
    LimiterSound(limits, w) && RunsSound(programs, w.m, w.runs)
  }

  ghost predicate RunsSound(programs: Programs, m: M.Mem, runs: map<RunId, Status>) {
    && RunsKnown(programs, runs) && ChildrenExist(runs)
    && NoStraySlots(m, runs) && PromisesKnown(m, runs)
  }

  // ----- deadlock freedom -----

  /** Some run can move on by itself; background events do not count. */
  ghost predicate CanMove(w: World) {
    exists step: Step :: !step.Background? && Enabled(w, step)
  }

  predicate Unfinished(w: World, r: RunId) {
    r in w.runs && !w.runs[r].Finished?
  }

  lemma {:induction false} LastUnfinished(w: World, candidates: set<RunId>) returns (last: RunId)
    requires exists r :: r in candidates && Unfinished(w, r)
    ensures Unfinished(w, last) && last in candidates
    ensures forall r :: r in candidates && Unfinished(w, r) ==> r <= last
    decreases |candidates|
  {
    var r :| r in candidates && Unfinished(w, r);
    if i :| i in candidates - {r} && Unfinished(w, i) {
      var other := LastUnfinished(w, candidates - {r});
      last := if other > r then other else r;
    } else {
      last := r;
    }
  }

  /** With no slot in use, every request that waits could be granted: the limiter would not let it wait. */
  lemma EmptyPoolServes(limits: Limits, w: string)
    requires Policy.Valid(limits) && Runnable(limits, w)
    ensures Admissible(limits, ActiveOf(limits, map[]), w)
  {
    var none := ActiveOf(limits, map[]);
    assert forall v :: Held(map[], v) == {};
    AllZeros(none);
    assert Shortfalls(limits, none) - {w} == ReservedMap(limits) - {w};
  }

  lemma SomebodyHoldsASlot(limits: Limits, w: World, p: Id)
    requires Policy.Valid(limits) && LimiterSound(limits, w) && p in w.m.waiters
    ensures w.m.slots != map[]
  {
    if w.m.slots == map[] {
      EmptyPoolServes(limits, w.m.waiters[p].workload);
    }
  }

  /** A slot in use belongs to a run that can move on: its response ends, or it takes the grant. */
  lemma HolderCanMove(w: World, slot: Id)
    requires M.Bookkeeping(w.m) && NoStraySlots(w.m, w.runs) && slot in w.m.slots
    ensures CanMove(w)
  {
    assert M.HasOwner(w.m.outcomes, slot, w.m.slots[slot].workload);
    var p :| p in w.m.outcomes && w.m.outcomes[p].Leased? && w.m.outcomes[p].slot == slot;
    assert Open(w.m, p);
    var r :| r in w.runs && Serves(w.m, w.runs[r], p);
    assert Enabled(w, if w.runs[r].Asking? then Settle(r) else Respond(r, w.clock, w.clock));
  }

  lemma AskerCanMove(limits: Limits, w: World, r: RunId)
    requires Policy.Valid(limits) && LimiterSound(limits, w) && NoStraySlots(w.m, w.runs) && PromisesKnown(w.m, w.runs)
    requires r in w.runs && w.runs[r].Asking?
    ensures CanMove(w)
  {
    var p := w.runs[r].promise;
    if p in w.m.outcomes {
      assert Enabled(w, Settle(r));
    } else {
      SomebodyHoldsASlot(limits, w, p);
      var slot :| slot in w.m.slots;
      HolderCanMove(w, slot);
    }
  }

  lemma LastCanMove(programs: Programs, w: World, last: RunId)
    requires RunsSound(programs, w.m, w.runs) && Unfinished(w, last) && !w.runs[last].Asking?
    requires forall r :: r in w.runs && Unfinished(w, r) ==> r <= last
    ensures CanMove(w)
  {
    assert KnownStatus(programs, last, w.runs[last]);
    match w.runs[last]
    case Ready(_) => assert Enabled(w, Proceed(last, w.clock, w.clock));
    case Calling(_, _) => assert Enabled(w, Respond(last, w.clock, w.clock));
    case Nested(children, _) =>
      assert forall c :: c in children ==> c in w.runs && c > last && !Unfinished(w, c);
      assert Enabled(w, Join(last));
  }

  /**
   Nested agents never deadlock: whatever the programs, the nesting and the capacity
   (one slot included), a state the runs can be in is finished or some run can move on.
   The last unfinished run waits for no other run, and if it waits for a slot, whoever
   has one is in the middle of a provider request and will give it back.
   */
  lemma NeverStuck(limits: Limits, programs: Programs, w: World, r: RunId)
    requires WellFormed(limits, programs) && Inv(limits, programs, w) && Unfinished(w, r)
    ensures CanMove(w)
  {
    var last := LastUnfinished(w, w.runs.Keys);
    if w.runs[last].Asking? {
      AskerCanMove(limits, w, last);
    } else {
      LastCanMove(programs, w, last);
    }
  }

  // ----- every step keeps the invariant -----

  lemma WaitersStayRunnable(limits: Limits, m: M.Mem, e: M.Event, now: int, expiry: int)
    requires M.Bookkeeping(m) && M.TicketsBelow(m) && M.SlotIdsBelow(m) && WaitersRunnable(limits, m)
    requires e.Acquire? ==> e.workload.Some? && Runnable(limits, e.workload.value)
    ensures WaitersRunnable(limits, M.After(limits, m, e, now, expiry))
  {
    var n := M.After(limits, m, e, now, expiry);
    M.EventGrows(limits, m, e, now, expiry);
    if e.Acquire? {
      M.AcquireQueuesOrSettles(limits, m, e.workload, e.aborted, e.timeoutMs, now, expiry);
    }
    forall p | p in n.waiters ensures Runnable(limits, n.waiters[p].workload) {
      assert p in m.waiters ==> Runnable(limits, m.waiters[p].workload);
    }
  }

  lemma LimiterStaysSound(limits: Limits, w: World, e: M.Event, now: int, expiry: int)
    requires LimiterSound(limits, w) && w.clock <= now
    requires e.Acquire? ==> e.workload.Some? && Runnable(limits, e.workload.value)
    ensures LimiterSound(limits, World(M.After(limits, w.m, e, now, expiry), now, w.runs))
    ensures M.Grows(w.m, M.After(limits, w.m, e, now, expiry), M.Asked(w.m, e))
  {
    var n := M.After(limits, w.m, e, now, expiry);
    M.EventKeepsInv(limits, w.m, w.clock, e, now, expiry);
    M.EventKeepsBookkeeping(limits, w.m, e, now, expiry);
    M.EventGrows(limits, w.m, e, now, expiry);
    WaitersStayRunnable(limits, w.m, e, now, expiry);
  }

  /** Calls stay attached to their runs while the limiter moves. */
  lemma StillAttached(m: M.Mem, n: M.Mem, runs: map<RunId, Status>, asked: set<Id>, p: Id)
    requires M.Grows(m, n, asked) && M.Bookkeeping(m) && NoStraySlots(m, runs)
    requires Open(n, p) && p !in asked
    ensures Attached(n, runs, p)
  {
    assert Open(m, p);
    var r :| r in runs && Serves(m, runs[r], p);
    assert Serves(n, runs[r], p);
  }

  lemma RunsSurvive(programs: Programs, m: M.Mem, n: M.Mem, runs: map<RunId, Status>, asked: set<Id>)
    requires M.Grows(m, n, asked) && M.Bookkeeping(m)
    requires NoStraySlots(m, runs) && PromisesKnown(m, runs)
    ensures forall p :: Open(n, p) && p !in asked ==> Attached(n, runs, p)
    ensures PromisesKnown(n, runs)
  {
    forall p | Open(n, p) && p !in asked ensures Attached(n, runs, p) {
      StillAttached(m, n, runs, asked, p);
    }
  }

  lemma BackgroundKeepsInv(limits: Limits, programs: Programs, w: World, e: M.Event, now: int, expiry: int)
    requires Inv(limits, programs, w) && Enabled(w, Background(e, now, expiry))
    ensures Inv(limits, programs, Next(limits, programs, w, Background(e, now, expiry)))
  {
    LimiterStaysSound(limits, w, e, now, expiry);
    RunsSurvive(programs, w.m, M.After(limits, w.m, e, now, expiry), w.runs, {});
  }

  /** A run that does not serve a call may change its status. */
  lemma OthersStayAttached(m: M.Mem, runs: map<RunId, Status>, r: RunId, s: Status, p: Id)
    requires Attached(m, runs, p) && r in runs && (Serves(m, runs[r], p) ==> Serves(m, s, p))
    ensures Attached(m, runs[r := s], p)
  {
    var o :| o in runs && Serves(m, runs[o], p);
    assert Serves(m, runs[r := s][o], p);
  }

  lemma AskedRunsSound(programs: Programs, m: M.Mem, n: M.Mem, runs: map<RunId, Status>, r: RunId)
    requires RunsSound(programs, m, runs) && M.Grows(m, n, {m.nextId}) && M.Bookkeeping(m)
    requires m.nextId in n.waiters || m.nextId in n.outcomes
    requires r in runs && runs[r].Ready? && runs[r].todo != []
    ensures RunsSound(programs, n, runs[r := Asking(m.nextId, runs[r].todo[1..])])
  {
    var s := Asking(m.nextId, runs[r].todo[1..]);
    assert KnownStatus(programs, r, runs[r]);
    TodoTail(programs, r, runs[r].todo);
    RunsSurvive(programs, m, n, runs, {m.nextId});
    forall p | Open(n, p) ensures Attached(n, runs[r := s], p) {
      if p == m.nextId {
        assert Serves(n, runs[r := s][r], p);
      } else {
        OthersStayAttached(n, runs, r, s, p);
      }
    }
  }

  lemma AskKeepsInv(limits: Limits, programs: Programs, w: World, r: RunId, now: int, expiry: int)
    requires WellFormed(limits, programs) && Inv(limits, programs, w)
    requires Enabled(w, Proceed(r, now, expiry)) && w.runs[r].todo != [] && w.runs[r].todo[0].Ask?
    ensures Inv(limits, programs, Next(limits, programs, w, Proceed(r, now, expiry)))
  {
    assert KnownStatus(programs, r, w.runs[r]);
    var e := M.Acquire(Some(programs[r].workload), false, None);
    var n := M.After(limits, w.m, e, now, expiry);
    LimiterStaysSound(limits, w, e, now, expiry);
    M.AcquireQueuesOrSettles(limits, w.m, e.workload, e.aborted, e.timeoutMs, now, expiry);
    AskedRunsSound(programs, w.m, n, w.runs, r);
  }

  lemma TodoTail(programs: Programs, r: RunId, todo: seq<Act>)
    requires todo != [] && ActsOk(programs, r, todo)
    ensures ActsOk(programs, r, todo[1..])
  {
    forall i | 0 <= i < |todo[1..]| && todo[1..][i].Start? ensures ChildrenOk(programs, r, todo[1..][i].children) {
      assert todo[1..][i] == todo[i + 1];
    }
  }

  lemma SpawnedRunsSound(programs: Programs, m: M.Mem, runs: map<RunId, Status>, r: RunId)
    requires RunsSound(programs, m, runs) && (forall c :: c in programs ==> ActsOk(programs, c, programs[c].acts))
    requires r in runs && runs[r].Ready? && runs[r].todo != [] && runs[r].todo[0].Start?
    ensures KnownStatus(programs, r, runs[r])
    ensures var todo := runs[r].todo;
            RunsSound(programs, m,
                      WithChildren(programs, runs[r := Nested(todo[0].children, todo[1..])], todo[0].children))
  {
    var todo := runs[r].todo;
    assert KnownStatus(programs, r, runs[r]);
    TodoTail(programs, r, todo);
    var mid := runs[r := Nested(todo[0].children, todo[1..])];
    var n := WithChildren(programs, mid, todo[0].children);
    forall p | Open(m, p) ensures Attached(m, n, p) {
      OthersStayAttached(m, runs, r, mid[r], p);
      var o :| o in mid && Serves(m, mid[o], p);
      assert n[o] == mid[o];
    }
    forall i | i in n ensures KnownStatus(programs, i, n[i]) {
      if i in mid {
        assert i == r || KnownStatus(programs, i, runs[i]);
      }
    }
  }

  lemma SpawnKeepsInv(limits: Limits, programs: Programs, w: World, r: RunId, now: int, expiry: int)
    requires WellFormed(limits, programs) && Inv(limits, programs, w)
    requires Enabled(w, Proceed(r, now, expiry)) && w.runs[r].todo != [] && w.runs[r].todo[0].Start?
    ensures Inv(limits, programs, Next(limits, programs, w, Proceed(r, now, expiry)))
  {
    SpawnedRunsSound(programs, w.m, w.runs, r);
    LaterIsSound(limits, w, now);
  }

  lemma LaterIsSound(limits: Limits, w: World, now: int)
    requires LimiterSound(limits, w) && w.clock <= now
    ensures LimiterSound(limits, w.(clock := now))
  {
  }

  lemma SettleKeepsInv(limits: Limits, programs: Programs, w: World, r: RunId)
    requires Inv(limits, programs, w) && Enabled(w, Settle(r))
    ensures Inv(limits, programs, Next(limits, programs, w, Settle(r)))
  {
    var s := StatusOf(w.m.outcomes[w.runs[r].promise], w.runs[r].todo);
    assert KnownStatus(programs, r, w.runs[r]);
    forall p | Open(w.m, p) ensures Attached(w.m, w.runs[r := s], p) {
      OthersStayAttached(w.m, w.runs, r, s, p);
    }
  }

  lemma RespondedRunsSound(programs: Programs, m: M.Mem, n: M.Mem, runs: map<RunId, Status>, r: RunId)
    requires RunsSound(programs, m, runs) && M.Grows(m, n, {}) && M.Bookkeeping(m)
    requires r in runs && runs[r].Calling? && runs[r].slot !in n.slots && M.Bookkeeping(n)
    ensures RunsSound(programs, n, runs[r := Ready(runs[r].todo)])
  {
    RunsSurvive(programs, m, n, runs, {});
    assert KnownStatus(programs, r, runs[r]);
    forall p | Open(n, p) ensures Attached(n, runs[r := Ready(runs[r].todo)], p) {
      OthersStayAttached(n, runs, r, Ready(runs[r].todo), p);
    }
  }

  lemma ReleaseByHolder(limits: Limits, w: World, slot: Id, now: int, expiry: int)
    requires M.Bookkeeping(w.m) && M.TicketsBelow(w.m) && M.SlotIdsBelow(w.m) && slot < w.m.nextId
    ensures M.Bookkeeping(M.After(limits, w.m, M.Release(slot), now, expiry))
    ensures M.Grows(w.m, M.After(limits, w.m, M.Release(slot), now, expiry), {})
    ensures slot !in M.After(limits, w.m, M.Release(slot), now, expiry).slots
  {
    assert slot !in M.After(limits, w.m, M.Release(slot), now, expiry).slots by {
      M.ReleasedIsGone(limits, w.m, slot, now, expiry);
    }
    M.EventKeepsBookkeeping(limits, w.m, M.Release(slot), now, expiry);
    M.EventGrows(limits, w.m, M.Release(slot), now, expiry);
  }

  lemma RespondKeepsInv(limits: Limits, programs: Programs, w: World, r: RunId, now: int, expiry: int)
    requires Inv(limits, programs, w) && Enabled(w, Respond(r, now, expiry))
    ensures Inv(limits, programs, Next(limits, programs, w, Respond(r, now, expiry)))
  {
    var slot := w.runs[r].slot;
    LimiterStaysSound(limits, w, M.Release(slot), now, expiry);
    ReleaseByHolder(limits, w, slot, now, expiry);
    RespondedRunsSound(programs, w.m, M.After(limits, w.m, M.Release(slot), now, expiry), w.runs, r);
  }

  lemma QuietStepKeepsInv(limits: Limits, programs: Programs, w: World, r: RunId, s: Status, now: int)
    requires Inv(limits, programs, w) && r in w.runs && w.clock <= now
    requires (w.runs[r].Ready? && s.Finished?) || (w.runs[r].Nested? && s == Ready(w.runs[r].todo))
    ensures Inv(limits, programs, w.(clock := now, runs := w.runs[r := s]))
  {
    assert KnownStatus(programs, r, w.runs[r]);
    forall p | Open(w.m, p) ensures Attached(w.m, w.runs[r := s], p) {
      OthersStayAttached(w.m, w.runs, r, s, p);
    }
    LaterIsSound(limits, w, now);
  }

  lemma StepKeepsInv(limits: Limits, programs: Programs, w: World, step: Step)
    requires WellFormed(limits, programs) && Inv(limits, programs, w) && Enabled(w, step)
    ensures Inv(limits, programs, Next(limits, programs, w, step))
  {
    match step
    case Proceed(r, now, expiry) =>
      if w.runs[r].todo == [] {
        QuietStepKeepsInv(limits, programs, w, r, Finished, now);
      } else if w.runs[r].todo[0].Ask? {
        AskKeepsInv(limits, programs, w, r, now, expiry);
      } else {
        SpawnKeepsInv(limits, programs, w, r, now, expiry);
      }
    case Settle(r) => SettleKeepsInv(limits, programs, w, r);
    case Respond(r, now, expiry) => RespondKeepsInv(limits, programs, w, r, now, expiry);
    case Join(r) => QuietStepKeepsInv(limits, programs, w, r, Ready(w.runs[r].todo), w.clock);
    case Background(e, now, expiry) => BackgroundKeepsInv(limits, programs, w, e, now, expiry);
  }

  ghost predicate Run(limits: Limits, programs: Programs, w: World, steps: seq<Step>, end: World)
    decreases steps
  {
    if steps == [] then end == w
    else
      && Enabled(w, steps[0]) && M.TicketsBelow(w.m) && RunsKnown(programs, w.runs)
      && Run(limits, programs, Next(limits, programs, w, steps[0]), steps[1..], end)
  }

  lemma {:induction false} RunKeepsInv(limits: Limits, programs: Programs, w: World, steps: seq<Step>, end: World)
    requires WellFormed(limits, programs) && Inv(limits, programs, w) && Run(limits, programs, w, steps, end)
    ensures Inv(limits, programs, end)
    decreases steps
  {
    if steps != [] {
      StepKeepsInv(limits, programs, w, steps[0]);
      RunKeepsInv(limits, programs, Next(limits, programs, w, steps[0]), steps[1..], end);
    }
  }

  // ----- every run finishes -----

  /** How many steps a run still takes by itself, at most: three for each act, and its end. */
  function Work(s: Status): nat {
    match s
    case Ready(todo) => 3 * |todo| + 1
    case Asking(_, todo) => 3 * |todo| + 3
    case Calling(_, todo) => 3 * |todo| + 2
    case Nested(_, todo) => 3 * |todo| + 2
    case Finished => 0
  }

  function WorkOf(programs: Programs, runs: map<RunId, Status>, r: RunId): nat
    requires r in programs
  {
    Work(if r in runs then runs[r] else Ready(programs[r].acts))
  }

  /** The work of every program, started or not. */
  ghost function Works(programs: Programs, runs: map<RunId, Status>): map<RunId, int> {
    map r | r in programs :: WorkOf(programs, runs, r)
  }

  ghost function TotalWork(programs: Programs, runs: map<RunId, Status>): int {
    Sum(Works(programs, runs))
  }

  lemma LessWork(programs: Programs, runs: map<RunId, Status>, n: map<RunId, Status>, r: RunId)
    requires r in programs && WorkOf(programs, n, r) < WorkOf(programs, runs, r)
    requires forall o :: o in programs && o != r ==> WorkOf(programs, n, o) == WorkOf(programs, runs, o)
    ensures TotalWork(programs, n) < TotalWork(programs, runs)
  {
    var work := WorkOf(programs, n, r);
    SumUpdate(Works(programs, runs), r, work);
    assert Works(programs, n) == Works(programs, runs)[r := work];
  }

  /** Every step but a background one does some of the work, and a background one adds none. */
  lemma StepDoesWork(limits: Limits, programs: Programs, w: World, step: Step)
    requires Enabled(w, step) && M.TicketsBelow(w.m) && RunsKnown(programs, w.runs)
    ensures if step.Background? then Next(limits, programs, w, step).runs == w.runs
            else TotalWork(programs, Next(limits, programs, w, step).runs) < TotalWork(programs, w.runs)
  {
    if !step.Background? {
      var r := step.run;
      assert KnownStatus(programs, r, w.runs[r]);
      LessWork(programs, w.runs, Next(limits, programs, w, step).runs, r);
    }
  }

  /** The steps that runs take, as opposed to the background events. */
  function Moves(steps: seq<Step>): nat {
    if steps == [] then 0 else (if steps[0].Background? then 0 else 1) + Moves(steps[1..])
  }

  lemma {:induction false} RunDoesWork(limits: Limits, programs: Programs, w: World, steps: seq<Step>, end: World)
    requires Run(limits, programs, w, steps, end)
    ensures Moves(steps) + TotalWork(programs, end.runs) <= TotalWork(programs, w.runs)
    decreases steps
  {
    if steps != [] {
      StepDoesWork(limits, programs, w, steps[0]);
      RunDoesWork(limits, programs, Next(limits, programs, w, steps[0]), steps[1..], end);
    }
  }

  function Start(programs: Programs, roots: set<RunId>, lags: seq<nat>, clock: int): World
    requires roots <= programs.Keys
  {
    World(M.Empty(lags), clock, map i | i in roots :: Ready(programs[i].acts))
  }

  lemma RunFromStartKeepsInv(limits: Limits, programs: Programs, roots: set<RunId>, lags: seq<nat>, clock: int,
                             steps: seq<Step>, end: World)
    requires WellFormed(limits, programs) && Bounded(limits, map[]) && roots <= programs.Keys
    requires Run(limits, programs, Start(programs, roots, lags, clock), steps, end)
    ensures Inv(limits, programs, end)
  {
    M.EmptyIsSound(limits, lags, clock);
    assert Inv(limits, programs, Start(programs, roots, lags, clock));
    RunKeepsInv(limits, programs, Start(programs, roots, lags, clock), steps, end);
  }

  /** From the start of any set of top-level runs, every reachable state is finished or can move on. */
  lemma NestedAgentsNeverDeadlock(limits: Limits, programs: Programs, roots: set<RunId>, lags: seq<nat>, clock: int,
                                  steps: seq<Step>, end: World, r: RunId)
    requires WellFormed(limits, programs) && Bounded(limits, map[]) && roots <= programs.Keys
    requires Run(limits, programs, Start(programs, roots, lags, clock), steps, end) && Unfinished(end, r)
    ensures CanMove(end)
  {
    RunFromStartKeepsInv(limits, programs, roots, lags, clock, steps, end);
    NeverStuck(limits, programs, end, r);
  }

  lemma WorkLeft(programs: Programs, runs: map<RunId, Status>)
    requires RunsKnown(programs, runs)
    ensures TotalWork(programs, runs) >= 0
    ensures (exists r :: r in runs && !runs[r].Finished?) ==> TotalWork(programs, runs) >= 1
  {
    var works := Works(programs, runs);
    SumNonNegative(works);
    if r :| r in runs && !runs[r].Finished? {
      assert KnownStatus(programs, r, runs[r]);
      SumRemove(works, r);
      SumNonNegative(works - {r});
    }
  }

  /** Three steps for each act of a program, and its end. */
  ghost function MovesOf(programs: Programs): map<RunId, int> {
    map r | r in programs :: 3 * |programs[r].acts| + 1
  }

  /** At most this many steps are taken by all programs together. */
  ghost function MostMoves(programs: Programs): int {
    Sum(MovesOf(programs))
  }

  lemma WorkAtTheStart(programs: Programs, roots: set<RunId>, lags: seq<nat>, clock: int)
    requires roots <= programs.Keys
    ensures TotalWork(programs, Start(programs, roots, lags, clock).runs) == MostMoves(programs)
  {
    var works := Works(programs, Start(programs, roots, lags, clock).runs);
    assert forall r :: r in programs ==> works[r] == MovesOf(programs)[r];
    assert works == MovesOf(programs);
  }

  ghost predicate AllDone(w: World) {
    forall r :: r in w.runs ==> w.runs[r].Finished?
  }

  lemma DoneWhenNothingIsLeft(limits: Limits, programs: Programs, w: World)
    requires WellFormed(limits, programs) && Inv(limits, programs, w)
    requires TotalWork(programs, w.runs) <= 0 || !CanMove(w)
    ensures AllDone(w)
  {
    if r :| r in w.runs && !w.runs[r].Finished? {
      assert Unfinished(w, r);
      NeverStuck(limits, programs, w, r);
      WorkLeft(programs, w.runs);
    }
  }

  /**
   Every run finishes: no execution has more steps of runs than the programs have work,
   whatever happens in the background in between, and one that has come to a point where
   no run can move on has finished them all.
   */
  lemma EveryRunFinishes(limits: Limits, programs: Programs, roots: set<RunId>, lags: seq<nat>, clock: int,
                         steps: seq<Step>, end: World)
    requires WellFormed(limits, programs) && Bounded(limits, map[]) && roots <= programs.Keys
    requires Run(limits, programs, Start(programs, roots, lags, clock), steps, end)
    ensures Moves(steps) <= MostMoves(programs)
    ensures Moves(steps) == MostMoves(programs) || !CanMove(end) ==> AllDone(end)
  {
    RunDoesWork(limits, programs, Start(programs, roots, lags, clock), steps, end);
    WorkAtTheStart(programs, roots, lags, clock);
    RunFromStartKeepsInv(limits, programs, roots, lags, clock, steps, end);
    WorkLeft(programs, end.runs);
    if Moves(steps) == MostMoves(programs) || !CanMove(end) {
      DoneWhenNothingIsLeft(limits, programs, end);
    }
  }
}
