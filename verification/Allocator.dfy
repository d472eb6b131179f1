/**
 The abstract slot allocator both limiters implement: requests join a queue, leave
 it, are granted slots by one allocation pass, and slots are renewed, released or
 expire. Everything here is independent of how a limiter stores its state.
 */
module Allocator {
  import opened Prelude
  import opened Sums
  import opened Policy
  import opened PolicyTheorems
  import S = LimiterSettings

  datatype Ticket = Ticket(workload: string, number: int)

  datatype Slot = Slot(workload: string, expiresAt: int)

  datatype State = State(waiting: map<Id, Ticket>, granted: map<Id, Slot>)

  ghost function Queue(waiting: map<Id, Ticket>): set<Waiter> {
    set id | id in waiting :: Waiter(id, waiting[id].workload, waiting[id].number)
  }

  /** The trigger keeps the solver from walking from slot to workload to slot. */
  ghost predicate KnownSlots(limits: Limits, granted: map<Id, Slot>) {
    forall id {:trigger Serves(limits, granted[id].workload)} :: id in granted ==> Serves(limits, granted[id].workload)
  }

  predicate Serves(limits: Limits, workload: string) {
    workload in limits.workloads
  }

  ghost function Held(granted: map<Id, Slot>, workload: string): set<Id> {
    set id | id in granted && granted[id].workload == workload
  }

  /** The active count of every workload. */
  ghost function ActiveOf(limits: Limits, granted: map<Id, Slot>): map<string, nat> {
    map w | w in limits.workloads :: |Held(granted, w)|
  }

  // ----- counting slots -----

  lemma ActiveIsHeld(limits: Limits, granted: map<Id, Slot>, w: string)
    requires KnownSlots(limits, granted)
    ensures Active(ActiveOf(limits, granted), w) == |Held(granted, w)|
  {
    if w !in limits.workloads {
      assert forall id :: id in granted ==> Serves(limits, granted[id].workload);
      assert Held(granted, w) == {};
    }
  }

  lemma HeldWithSlot(granted: map<Id, Slot>, id: Id, slot: Slot, w: string)
    requires id !in granted
    ensures |Held(granted[id := slot], w)| == |Held(granted, w)| + (if w == slot.workload then 1 else 0)
  {
    var more := granted[id := slot];
    assert more[id] == slot && forall i :: i in granted ==> more[i] == granted[i];
    assert Held(more, w) == Held(granted, w) + (if w == slot.workload then {id} else {});
  }

  lemma AddSlot(limits: Limits, granted: map<Id, Slot>, id: Id, slot: Slot)
    requires id !in granted && slot.workload in limits.workloads
    ensures ActiveOf(limits, granted[id := slot]) == Grant(ActiveOf(limits, granted), slot.workload)
  {
    var more, expected := ActiveOf(limits, granted[id := slot]), Grant(ActiveOf(limits, granted), slot.workload);
    forall w | w in more ensures more[w] == expected[w] {
      HeldWithSlot(granted, id, slot, w);
    }
  }

  lemma RemoveSlot(limits: Limits, granted: map<Id, Slot>, id: Id)
    requires id in granted && granted[id].workload in limits.workloads
    ensures ActiveOf(limits, granted) == Grant(ActiveOf(limits, granted - {id}), granted[id].workload)
  {
    AddSlot(limits, granted - {id}, id, granted[id]);
    assert (granted - {id})[id := granted[id]] == granted;
  }

  lemma RenewSlot(limits: Limits, granted: map<Id, Slot>, id: Id, expiresAt: int)
    requires id in granted
    ensures ActiveOf(limits, granted[id := Slot(granted[id].workload, expiresAt)]) == ActiveOf(limits, granted)
  {
    var renewed := granted[id := Slot(granted[id].workload, expiresAt)];
    assert forall w :: Held(renewed, w) == Held(granted, w);
  }

  lemma {:induction false} TotalIsSlots(limits: Limits, granted: map<Id, Slot>)
    requires KnownSlots(limits, granted)
    ensures Total(ActiveOf(limits, granted)) == |granted|
    decreases |granted|
  {
    if granted == map[] {
      assert forall w :: Held(granted, w) == {};
      AllZeros(ActiveOf(limits, granted));
    } else {
      var id :| id in granted;
      var w, fewer := granted[id].workload, ActiveOf(limits, granted - {id});
      assert Serves(limits, w);
      TotalIsSlots(limits, granted - {id});
      RemoveSlot(limits, granted, id);
      SumUpdate(fewer, w, Active(fewer, w) + 1);
    }
  }

  lemma AllZeros(active: map<string, nat>)
    requires forall w :: w in active ==> active[w] == 0
    ensures Total(active) == 0
  {
    SumNonNegative(active);
    SumMonotone(active, map w | w in active :: 0);
    ZeroSum(active.Keys);
  }

  lemma {:induction false} ZeroSum(keys: set<string>)
    ensures Sum(map w | w in keys :: 0) == 0
    decreases |keys|
  {
    if keys == {} {
      assert (map w | w in keys :: 0) == map[];
    } else {
      var k :| k in keys;
      ZeroSum(keys - {k});
      SumRemove(map w | w in keys :: 0, k);
      assert (map w | w in keys :: 0) - {k} == map w | w in keys - {k} :: 0;
    }
  }

  lemma FewerSlotsStayBounded(limits: Limits, granted: map<Id, Slot>, gone: set<Id>)
    requires KnownSlots(limits, granted) && Bounded(limits, ActiveOf(limits, granted))
    ensures KnownSlots(limits, granted - gone) && Bounded(limits, ActiveOf(limits, granted - gone))
  {
    var more, less := ActiveOf(limits, granted), ActiveOf(limits, granted - gone);
    forall w ensures Active(less, w) <= Active(more, w) {
      SubsetSize(Held(granted - gone, w), Held(granted, w));
    }
    LoadIsClaims(limits, more);
    LoadIsClaims(limits, less);
    SumMonotone(Claims(limits, less), Claims(limits, more));
  }

  // ----- handing out the slots of one pass -----

  ghost function AddGrants(granted: map<Id, Slot>, grants: seq<Waiter>, leases: seq<Id>, expiresAt: int): map<Id, Slot>
    requires |leases| == |grants|
    decreases grants
  {
    if grants == [] then granted
    else AddGrants(granted[leases[0] := Slot(grants[0].workload, expiresAt)], grants[1..], leases[1..], expiresAt)
  }

  lemma {:induction false} AddGrantsCounts(limits: Limits, granted: map<Id, Slot>, grants: seq<Waiter>, leases: seq<Id>,
                                           expiresAt: int)
    requires |leases| == |grants| && NoDuplicates(leases)
    requires forall id :: id in leases ==> id !in granted
    requires forall x :: x in grants ==> x.workload in limits.workloads
    ensures ActiveOf(limits, AddGrants(granted, grants, leases, expiresAt)) ==
            GrantAll(ActiveOf(limits, granted), grants)
    decreases grants
  {
    if grants != [] {
      AddSlot(limits, granted, leases[0], Slot(grants[0].workload, expiresAt));
      AddGrantsCounts(limits, granted[leases[0] := Slot(grants[0].workload, expiresAt)], grants[1..], leases[1..],
                      expiresAt);
    }
  }

  lemma {:induction false} AddGrantsSlots(granted: map<Id, Slot>, grants: seq<Waiter>, leases: seq<Id>, expiresAt: int,
                                          id: Id)
    requires |leases| == |grants|
    ensures var after := AddGrants(granted, grants, leases, expiresAt);
            && after.Keys == granted.Keys + Elems(leases)
            && (id !in leases && id in granted ==> after[id] == granted[id])
            && (id in leases ==>
                  after[id].expiresAt == expiresAt && exists x :: x in grants && x.workload == after[id].workload)
    decreases grants
  {
    if grants != [] {
      var next := granted[leases[0] := Slot(grants[0].workload, expiresAt)];
      AddGrantsSlots(next, grants[1..], leases[1..], expiresAt, id);
      assert leases == [leases[0]] + leases[1..];
      assert Elems(leases) == {leases[0]} + Elems(leases[1..]);
      var after := AddGrants(granted, grants, leases, expiresAt);
      if id in leases {
        if id in leases[1..] {
          var x :| x in grants[1..] && x.workload == after[id].workload;
          assert x in grants;
        } else {
          assert after[id] == next[id] && grants[0] in grants;
        }
      }
    }
  }

  // ----- steps -----

  datatype Step =
    | Enqueue(id: Id, workload: string, number: int)
    | Cancel(ids: set<Id>)
    | Release(ids: set<Id>)
    | Expire(ids: set<Id>, now: int)
    | Renew(id: Id, now: int, expiresAt: int)
    | Allocate(leases: seq<Id>, expiresAt: int)

  ghost predicate Inv(limits: Limits, s: State) {
    && Bounded(limits, ActiveOf(limits, s.granted))
    && KnownSlots(limits, s.granted)
    && (forall id :: id in s.waiting ==> s.waiting[id].workload in limits.workloads)
    && (forall i, j :: i in s.waiting && j in s.waiting && s.waiting[i].number == s.waiting[j].number ==> i == j)
  }

  lemma QueueIsDistinct(limits: Limits, s: State)
    requires Inv(limits, s)
    ensures DistinctTickets(Queue(s.waiting))
  {
  }

  ghost function PassGrants(limits: Limits, s: State): seq<Waiter>
    requires Inv(limits, s)
  {
    QueueIsDistinct(limits, s);
    Grants(limits, ActiveOf(limits, s.granted), Queue(s.waiting))
  }

  ghost predicate Next(limits: Limits, s: State, step: Step, t: State)
    requires Inv(limits, s)
  {
    match step
    case Enqueue(id, workload, number) =>
      && id !in s.waiting && id !in s.granted && workload in limits.workloads
      && (forall i :: i in s.waiting ==> s.waiting[i].number != number)
      && t == s.(waiting := s.waiting[id := Ticket(workload, number)])
    case Cancel(ids) =>
      && ids <= s.waiting.Keys
      && t == s.(waiting := s.waiting - ids)
    case Release(ids) =>
      t == s.(granted := s.granted - ids)
    case Expire(ids, now) =>
      && ids <= s.granted.Keys
      && (forall id :: id in ids ==> s.granted[id].expiresAt <= now)
      && t == s.(granted := s.granted - ids)
    case Renew(id, now, expiresAt) =>
      && id in s.granted && s.granted[id].expiresAt > now
      && t == s.(granted := s.granted[id := Slot(s.granted[id].workload, expiresAt)])
    case Allocate(leases, expiresAt) =>
      var grants := PassGrants(limits, s);
      && |leases| == |grants| && NoDuplicates(leases)
      && (forall id :: id in leases ==> id !in s.granted)
      && t == State(s.waiting - Elems(Ids(grants)), AddGrants(s.granted, grants, leases, expiresAt))
  }

  lemma QueueEntry(waiting: map<Id, Ticket>, x: Waiter)
    requires x in Queue(waiting)
    ensures x.id in waiting && x == Waiter(x.id, waiting[x.id].workload, waiting[x.id].number)
  {
  }

  lemma GrantedWaits(limits: Limits, grants: seq<Waiter>, queue: set<Waiter>, x: Waiter)
    requires Elems(grants) <= Known(limits, queue) && x in grants
    ensures x in queue
  {
    assert x in Elems(grants);
  }

  /** The grants of a pass are queued requests, each granted once. */
  lemma GrantsAreQueued(limits: Limits, active: map<string, nat>, waiting: map<Id, Ticket>)
    requires DistinctTickets(Queue(waiting))
    ensures var grants := Grants(limits, active, Queue(waiting));
            && (forall x :: x in grants ==> x.id in waiting && x.workload == waiting[x.id].workload)
            && NoDuplicates(Ids(grants))
  {
    var grants := Grants(limits, active, Queue(waiting));
    GrantsAreFairAndFifo(limits, active, Queue(waiting), "");
    forall x | x in grants ensures x.id in waiting && x == Waiter(x.id, waiting[x.id].workload, waiting[x.id].number) {
      GrantedWaits(limits, grants, Queue(waiting), x);
      QueueEntry(waiting, x);
    }
    DistinctIds(limits, grants, waiting);
  }

  lemma DistinctIds(limits: Limits, grants: seq<Waiter>, waiting: map<Id, Ticket>)
    requires InOrder(limits, grants)
    requires forall x :: x in grants ==>
             x.id in waiting && x == Waiter(x.id, waiting[x.id].workload, waiting[x.id].number)
    ensures NoDuplicates(Ids(grants))
  {
    forall i, j | 0 <= i < j < |grants| ensures Ids(grants)[i] != Ids(grants)[j] {
      var x, y := grants[i], grants[j];
      assert x in grants && y in grants && Before(limits, x, y);
      assert x.id == y.id ==> x == y;
    }
  }

  lemma IdsTail(grants: seq<Waiter>)
    requires grants != [] && NoDuplicates(Ids(grants))
    ensures Ids(grants)[0] == grants[0].id && Ids(grants)[1..] == Ids(grants[1..]) && NoDuplicates(Ids(grants[1..]))
    ensures Elems(Ids(grants)) == {grants[0].id} + Elems(Ids(grants[1..]))
    ensures forall x :: x in grants[1..] ==> x in grants && x.id != grants[0].id
  {
    assert Ids(grants) == [grants[0].id] + Ids(grants[1..]);
    forall x | x in grants[1..] ensures x in grants && x.id != grants[0].id {
      var k :| 0 <= k < |grants[1..]| && grants[1..][k] == x;
      assert Ids(grants)[0] == grants[0].id && Ids(grants)[k + 1] == x.id;
    }
  }

  lemma AllocateKeepsInv(limits: Limits, s: State, leases: seq<Id>, expiresAt: int, t: State)
    requires Inv(limits, s) && Next(limits, s, Allocate(leases, expiresAt), t)
    ensures Inv(limits, t)
    ensures ActiveOf(limits, t.granted) == GrantAll(ActiveOf(limits, s.granted), PassGrants(limits, s))
  {
    var active, grants := ActiveOf(limits, s.granted), PassGrants(limits, s);
    QueueIsDistinct(limits, s);
    forall x | x in grants ensures x.workload in limits.workloads {
      SweepElems(limits, active, Ranked(limits, Known(limits, Queue(s.waiting))), x);
    }
    AddGrantsCounts(limits, s.granted, grants, leases, expiresAt);
    SweepKeepsBounds(limits, active, Ranked(limits, Known(limits, Queue(s.waiting))));
    forall id | id in t.granted ensures Serves(limits, t.granted[id].workload) {
      AddGrantsSlots(s.granted, grants, leases, expiresAt, id);
      assert id in s.granted ==> Serves(limits, s.granted[id].workload);
      if id in leases {
        var x :| x in grants && x.workload == t.granted[id].workload;
      }
    }
  }

  /** Every step of every implementation keeps the ceilings and the reservations. */
  lemma StepKeepsInv(limits: Limits, s: State, step: Step, t: State)
    requires Inv(limits, s) && Next(limits, s, step, t)
    ensures Inv(limits, t)
  {
    match step
    case Enqueue(_, _, _) =>
    case Cancel(_) =>
    case Release(ids) => FewerSlotsStayBounded(limits, s.granted, ids);
    case Expire(ids, _) => FewerSlotsStayBounded(limits, s.granted, ids);
    case Renew(id, _, expiresAt) => RenewSlot(limits, s.granted, id, expiresAt);
    case Allocate(leases, expiresAt) => AllocateKeepsInv(limits, s, leases, expiresAt, t);
  }

  /** A step and the state it leads to. */
  datatype Move = Move(step: Step, to: State)

  /** A sequence of abstract steps, every one taken from a sound state. */
  ghost predicate Path(limits: Limits, s: State, moves: seq<Move>, t: State)
    decreases moves
  {
    && Inv(limits, s)
    && if moves == [] then t == s
       else Next(limits, s, moves[0].step, moves[0].to) && Path(limits, moves[0].to, moves[1..], t)
  }

  lemma {:induction false} PathKeepsInv(limits: Limits, s: State, moves: seq<Move>, t: State)
    requires Path(limits, s, moves, t)
    ensures Inv(limits, t)
    decreases moves
  {
    if moves != [] {
      PathKeepsInv(limits, moves[0].to, moves[1..], t);
    }
  }

  lemma {:induction false} PathConcat(limits: Limits, s: State, a: seq<Move>, mid: State, b: seq<Move>, t: State)
    requires Path(limits, s, a, mid) && Path(limits, mid, b, t)
    ensures Path(limits, s, a + b, t)
    decreases a
  {
    if a == [] {
      assert a + b == b;
    } else {
      PathConcat(limits, a[0].to, a[1..], mid, b, t);
      ConcatTail(a, b);
    }
  }

  /** One state is reached from another by abstract steps only. */
  ghost predicate Reaches(limits: Limits, s: State, t: State) {
    exists moves :: Path(limits, s, moves, t)
  }

  lemma ReachesStep(limits: Limits, s: State, step: Step, t: State)
    requires Inv(limits, s) && Next(limits, s, step, t)
    ensures Inv(limits, t) && Reaches(limits, s, t)
  {
    StepKeepsInv(limits, s, step, t);
    assert Path(limits, t, [], t);
    assert Path(limits, s, [Move(step, t)], t);
  }

  lemma ReachesTransitive(limits: Limits, s: State, mid: State, t: State)
    requires Reaches(limits, s, mid) && Reaches(limits, mid, t)
    ensures Reaches(limits, s, t)
  {
    var a :| Path(limits, s, a, mid);
    var b :| Path(limits, mid, b, t);
    PathConcat(limits, s, a, mid, b, t);
  }

  lemma ReachesSelf(limits: Limits, s: State)
    requires Inv(limits, s)
    ensures Reaches(limits, s, s)
  {
    assert Path(limits, s, [], s);
  }

  // ----- what every reachable state guarantees -----

  /**
   Whatever the steps taken: never more slots than the limit, never more than a
   workload's ceiling, and never so many that another workload could not use its
   whole reservation.
   */
  lemma ReachableStatesAreSafe(limits: Limits, s: State, moves: seq<Move>, t: State, w: string)
    requires Path(limits, s, moves, t) && w in limits.workloads
    ensures |t.granted| <= limits.maxConcurrent
    ensures |Held(t.granted, w)| <= limits.workloads[w].maxConcurrent
    ensures |Held(t.granted, w)| + OthersReserved(limits, w) <= limits.maxConcurrent
  {
    PathKeepsInv(limits, s, moves, t);
    InvIsSafe(limits, t, w);
  }

  lemma InvIsSafe(limits: Limits, s: State, w: string)
    requires Inv(limits, s) && w in limits.workloads
    ensures |s.granted| <= limits.maxConcurrent
    ensures |Held(s.granted, w)| <= limits.workloads[w].maxConcurrent
    ensures |Held(s.granted, w)| + OthersReserved(limits, w) <= limits.maxConcurrent
  {
    TotalIsSlots(limits, s.granted);
    SumNonNegative(Shortfalls(limits, ActiveOf(limits, s.granted)));
    ActiveIsHeld(limits, s.granted, w);
    OthersReservationsStayFree(limits, ActiveOf(limits, s.granted), w);
  }

  /** No queued request could be granted now. */
  ghost predicate NobodyWaitsInVain(limits: Limits, s: State) {
    forall id :: id in s.waiting ==> !Admissible(limits, ActiveOf(limits, s.granted), s.waiting[id].workload)
  }

  lemma AllocateLeavesNobody(limits: Limits, s: State, leases: seq<Id>, expiresAt: int, t: State)
    requires Inv(limits, s) && Next(limits, s, Allocate(leases, expiresAt), t)
    ensures Inv(limits, t) && NobodyWaitsInVain(limits, t) && Reaches(limits, s, t)
  {
    ReachesStep(limits, s, Allocate(leases, expiresAt), t);
    AllocateKeepsInv(limits, s, leases, expiresAt, t);
    QueueIsDistinct(limits, s);
    var grants := PassGrants(limits, s);
    forall id | id in t.waiting ensures !Admissible(limits, ActiveOf(limits, t.granted), t.waiting[id].workload) {
      var x := Waiter(id, s.waiting[id].workload, s.waiting[id].number);
      assert x in Queue(s.waiting);
      forall i | 0 <= i < |grants| ensures grants[i] != x {
        assert Ids(grants)[i] in Elems(Ids(grants));
      }
      PassLeavesNobodyAdmissible(limits, ActiveOf(limits, s.granted), Queue(s.waiting), x);
    }
  }

  /** While nobody waits in vain, no request waits in a workload that has not used up its reservation. */
  lemma ReservationsAreServed(limits: Limits, s: State, id: Id)
    requires Valid(limits) && Inv(limits, s) && NobodyWaitsInVain(limits, s) && id in s.waiting
    ensures |Held(s.granted, s.waiting[id].workload)| >= limits.workloads[s.waiting[id].workload].reserved
  {
    var w := s.waiting[id].workload;
    ActiveIsHeld(limits, s.granted, w);
    if Active(ActiveOf(limits, s.granted), w) < limits.workloads[w].reserved {
      ReservedIsAdmissible(limits, ActiveOf(limits, s.granted), w);
    }
  }

  /**
   A workload can run exactly when the other workloads' reservations do not fill the
   limiter: then an idle limiter can serve it, and otherwise no state of the slots lets
   it in. AcceptedSettingsMayStarve gives settings of the second kind.
   */
  lemma RunnableExactlyWhenOthersLeaveRoom(limits: Limits, w: string)
    requires w in limits.workloads && limits.workloads[w].maxConcurrent >= 1
    ensures (exists active :: Admissible(limits, active, w))
       <==> OthersReserved(limits, w) < limits.maxConcurrent
  {
    if OthersReserved(limits, w) < limits.maxConcurrent {
      assert Shortfalls(limits, map[]) - {w} == ReservedMap(limits) - {w};
      assert Total(map[]) == 0;
      assert Admissible(limits, map[], w);
    }
    if active :| Admissible(limits, active, w) {
      AdmissibleLeavesRoom(limits, active, w);
    }
  }

  /** One workload with the given limit, all of it reserved, beside one without settings of its own. */
  function Starving(limit: int): S.RawLimits {
    var whole := S.RawWorkload(S.Undefined, S.Number(limit), S.Undefined, S.Undefined);
    var plain := S.RawWorkload(S.Undefined, S.Undefined, S.Undefined, S.Undefined);
    S.RawLimits(S.Number(limit), S.Undefined, S.Entries([("a", whole), ("b", plain)]), S.Undefined)
  }

  /** Validation accepts such settings at every limit, and then "b" is never admissible. */
  lemma AcceptedSettingsMayStarve(limit: int)
    requires 1 <= limit <= S.MAX_SAFE_INTEGER
    ensures S.Acceptable(Starving(limit))
    ensures var limits := S.Resolved(Starving(limit));
            && "b" in limits.workloads && limits.workloads["b"].maxConcurrent == limits.maxConcurrent == limit
            && OthersReserved(limits, "b") == limits.maxConcurrent
            && forall active :: !Admissible(limits, active, "b")
  {
    var raw := Starving(limit);
    var entries := S.EntriesOf(raw);
    var a, b := S.Filled(limit, entries[0].1), S.Filled(limit, entries[1].1);
    assert a == Settings(limit, limit, 0, None) && b == Settings(limit, 0, 0, None);
    var none: map<string, Settings> := map[];
    assert entries[..1] == [entries[0]] && entries[..1][..0] == [];
    assert S.Workloads(limit, entries[..1]) == none["a" := a];
    assert S.Workloads(limit, entries) == none["a" := a]["b" := b];
    S.NewReservation(none, "a", a);
    S.NewReservation(none["a" := a], "b", b);
    assert S.Reservations(none) == map[];
    assert S.Acceptable(raw);
    var limits := S.Resolved(raw);
    assert ReservedMap(limits) - {"b"} == S.Reservations(none["a" := a]);
    forall active ensures !Admissible(limits, active, "b") {
      if Admissible(limits, active, "b") {
        AdmissibleLeavesRoom(limits, active, "b");
      }
    }
  }

  lemma AdmissibleLeavesRoom(limits: Limits, active: map<string, nat>, w: string)
    requires Admissible(limits, active, w)
    ensures OthersReserved(limits, w) < limits.maxConcurrent
  {
    var unmet := Shortfalls(limits, active) - {w};
    var held: map<string, int> := map v | v in unmet :: Active(active, v);
    var both := map v | v in unmet :: held[v] + unmet[v];
    PartOfTotal(active, unmet.Keys);
    SumAdd(both, held, unmet);
    SumMonotone(ReservedMap(limits) - {w}, both);
  }

  lemma {:induction false} PartOfTotal(active: map<string, nat>, keys: set<string>)
    ensures Sum(map v | v in keys :: Active(active, v)) <= Total(active)
    decreases |keys|
  {
    var part: map<string, int> := map v | v in keys :: Active(active, v);
    if keys == {} {
      assert part == map[];
      SumNonNegative(active);
    } else {
      var k :| k in keys;
      PartOfTotal(active - {k}, keys - {k});
      SumRemove(part, k);
      assert part - {k} == map v | v in keys - {k} :: Active(active - {k}, v);
      if k in active {
        SumRemove(active, k);
      } else {
        assert active - {k} == active;
      }
    }
  }
}
