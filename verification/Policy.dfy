/**
 The allocation pass that both limiters share (concurrency-policy.ts): the
 multi-queue greedy loop as a method, and its meaning as one left-to-right sweep
 over the waiters in rank order.
 */
module Policy {
  import opened Prelude
  import opened Sums

  type Id = nat

  datatype Settings = Settings(maxConcurrent: int, reserved: nat, priority: int, maxWaitMs: Option<int>)

  /** Validated limits. The order of the workload keys is not part of the value. */
  datatype Limits = Limits(
    maxConcurrent: int,
    maxQueued: Option<int>,
    defaultWorkload: Option<string>,
    workloads: map<string, Settings>)

  datatype Waiter = Waiter(id: Id, workload: string, ticket: int)

  /** What settings validation guarantees and the proofs below need. */
  ghost predicate Valid(limits: Limits) {
    && forall w :: w in limits.workloads ==>
         limits.workloads[w].reserved <= limits.workloads[w].maxConcurrent <= limits.maxConcurrent
  }

  function Active(active: map<string, nat>, workload: string): nat {
    if workload in active then active[workload] else 0
  }

  ghost function Total(active: map<string, nat>): int {
    Sum(active)
  }

  function Shortfall(settings: Settings, active: nat): nat {
    if settings.reserved > active then settings.reserved - active else 0
  }

  ghost function Shortfalls(limits: Limits, active: map<string, nat>): map<string, int> {
    map w | w in limits.workloads :: Shortfall(limits.workloads[w], Active(active, w))
  }

  ghost function UnmetExcept(limits: Limits, active: map<string, nat>, except: string): int {
    Sum(Shortfalls(limits, active) - {except})
  }

  /** Slots in use plus every reservation still to be honoured. */
  ghost function Load(limits: Limits, active: map<string, nat>): int {
    Total(active) + Sum(Shortfalls(limits, active))
  }

  ghost predicate Admissible(limits: Limits, active: map<string, nat>, workload: string) {
    && workload in limits.workloads
    && Active(active, workload) < limits.workloads[workload].maxConcurrent
    && Total(active) + 1 + UnmetExcept(limits, active, workload) <= limits.maxConcurrent
  }

  function Grant(active: map<string, nat>, workload: string): map<string, nat> {
    active[workload := Active(active, workload) + 1]
  }

  ghost function GrantAll(active: map<string, nat>, granted: seq<Waiter>): map<string, nat>
    decreases granted
  {
    if granted == [] then active else GrantAll(Grant(active, granted[0].workload), granted[1..])
  }

  // ----- rank order -----

  function Priority(limits: Limits, workload: string): int {
    if workload in limits.workloads then limits.workloads[workload].priority else 0
  }

  /** Higher priority first, then the older request. */
  predicate Before(limits: Limits, a: Waiter, b: Waiter) {
    || Priority(limits, a.workload) > Priority(limits, b.workload)
    || (Priority(limits, a.workload) == Priority(limits, b.workload) && a.ticket < b.ticket)
  }

  ghost predicate InOrder(limits: Limits, s: seq<Waiter>) {
    forall i, j :: 0 <= i < j < |s| ==> Before(limits, s[i], s[j])
  }

  ghost predicate DistinctTickets(waiters: set<Waiter>) {
    forall a, b :: a in waiters && b in waiters && a.ticket == b.ticket ==> a == b
  }

  ghost function Known(limits: Limits, waiters: set<Waiter>): set<Waiter> {
    set x | x in waiters && x.workload in limits.workloads
  }

  ghost predicate IsFirst(limits: Limits, x: Waiter, waiters: set<Waiter>) {
    x in waiters && forall y :: y in waiters ==> y == x || Before(limits, x, y)
  }

  lemma {:induction false} FirstExists(limits: Limits, waiters: set<Waiter>)
    requires DistinctTickets(waiters) && waiters != {}
    ensures exists x :: IsFirst(limits, x, waiters)
    decreases |waiters|
  {
    var x :| x in waiters;
    var others := waiters - {x};
    if others == {} {
      assert waiters == {x};
      assert IsFirst(limits, x, waiters);
    } else {
      FirstExists(limits, others);
      var y :| IsFirst(limits, y, others);
      var first := if Before(limits, x, y) then x else y;
      forall z | z in waiters ensures z == first || Before(limits, first, z) {
        assert z == x || z in others;
      }
      assert IsFirst(limits, first, waiters);
    }
  }

  lemma RankedCons(limits: Limits, x: Waiter, rest: seq<Waiter>, waiters: set<Waiter>)
    requires IsFirst(limits, x, waiters) && InOrder(limits, rest) && Elems(rest) == waiters - {x}
    ensures InOrder(limits, [x] + rest) && Elems([x] + rest) == waiters
  {
    ConsElems(x, rest);
    forall k | 0 <= k < |rest| ensures Before(limits, x, rest[k]) {
      assert rest[k] in Elems(rest);
    }
  }

  /** The one listing of a set of waiters in rank order. */
  ghost function Ranked(limits: Limits, waiters: set<Waiter>): (s: seq<Waiter>)
    requires DistinctTickets(waiters)
    ensures InOrder(limits, s) && Elems(s) == waiters
    decreases |waiters|
  {
    if waiters == {} then [] else
      FirstExists(limits, waiters);
      var x :| IsFirst(limits, x, waiters);
      var rest := Ranked(limits, waiters - {x});
      RankedCons(limits, x, rest, waiters);
      [x] + rest
  }

  lemma {:induction false} RankedUnique(limits: Limits, a: seq<Waiter>, b: seq<Waiter>)
    requires InOrder(limits, a) && InOrder(limits, b) && Elems(a) == Elems(b)
    ensures a == b
  {
    if a == [] {
      ElemsEmpty(b);
    } else {
      assert a[0] in Elems(b) && b != [];
      assert b[0] in Elems(a);
      assert a[0] == b[0];
      assert Elems(a[1..]) == Elems(a) - {a[0]};
      assert Elems(b[1..]) == Elems(b) - {b[0]};
      RankedUnique(limits, a[1..], b[1..]);
    }
  }

  // ----- the sweep: the specification of one allocation pass -----

  /** Walk the waiters once, taking each one that is admissible at that moment. */
  ghost function Sweep(limits: Limits, active: map<string, nat>, s: seq<Waiter>): seq<Waiter>
    decreases s
  {
    if s == [] then []
    else if Admissible(limits, active, s[0].workload) then
      [s[0]] + Sweep(limits, Grant(active, s[0].workload), s[1..])
    else Sweep(limits, active, s[1..])
  }

  ghost function Grants(limits: Limits, active: map<string, nat>, waiters: set<Waiter>): seq<Waiter>
    requires DistinctTickets(waiters)
  {
    Sweep(limits, active, Ranked(limits, Known(limits, waiters)))
  }

  // ----- a blocked workload stays blocked -----

  lemma LoadSplit(limits: Limits, active: map<string, nat>, w: string)
    requires w in limits.workloads
    ensures Load(limits, active)
         == Total(active) + UnmetExcept(limits, active, w) + Shortfall(limits.workloads[w], Active(active, w))
  {
    SumRemove(Shortfalls(limits, active), w);
  }

  lemma UnmetNonNegative(limits: Limits, active: map<string, nat>, except: string)
    ensures UnmetExcept(limits, active, except) >= 0
  {
    SumNonNegative(Shortfalls(limits, active) - {except});
  }

  lemma GrantShortfalls(limits: Limits, active: map<string, nat>, v: string)
    requires v in limits.workloads
    ensures Total(Grant(active, v)) == Total(active) + 1
    ensures Shortfalls(limits, Grant(active, v))
         == Shortfalls(limits, active)[v := Shortfall(limits.workloads[v], Active(active, v) + 1)]
  {
    SumUpdate(active, v, Active(active, v) + 1);
  }

  /** Slots in use plus the other workloads' unmet reservations never go down during a pass. */
  lemma GrantNeverMakesRoom(limits: Limits, active: map<string, nat>, v: string, w: string)
    requires v in limits.workloads
    ensures Total(Grant(active, v)) + UnmetExcept(limits, Grant(active, v), w)
         >= Total(active) + UnmetExcept(limits, active, w)
  {
    GrantShortfalls(limits, active, v);
    var before := Shortfalls(limits, active);
    var one := Shortfall(limits.workloads[v], Active(active, v) + 1);
    if v == w {
      assert before[v := one] - {w} == before - {w};
    } else {
      assert before[v := one] - {w} == (before - {w})[v := one];
      SumUpdate(before - {w}, v, one);
    }
  }

  lemma StaysBlocked(limits: Limits, active: map<string, nat>, v: string, w: string)
    requires v in limits.workloads && !Admissible(limits, active, w)
    ensures !Admissible(limits, Grant(active, v), w)
  {
    GrantNeverMakesRoom(limits, active, v, w);
  }

  lemma {:induction false} StaysBlockedAll(limits: Limits, active: map<string, nat>, granted: seq<Waiter>, w: string)
    requires forall x :: x in granted ==> x.workload in limits.workloads
    requires !Admissible(limits, active, w)
    ensures !Admissible(limits, GrantAll(active, granted), w)
    decreases granted
  {
    if granted != [] {
      StaysBlocked(limits, active, granted[0].workload, w);
      StaysBlockedAll(limits, Grant(active, granted[0].workload), granted[1..], w);
    }
  }

  lemma {:induction false} SweepSkips(limits: Limits, active: map<string, nat>, s: seq<Waiter>, i: nat)
    requires i <= |s|
    requires forall j :: 0 <= j < i ==> !Admissible(limits, active, s[j].workload)
    ensures Sweep(limits, active, s) == Sweep(limits, active, s[i..])
    decreases i
  {
    if i > 0 {
      SweepSkips(limits, active, s[1..], i - 1);
      assert s[1..][i - 1..] == s[i..];
    } else {
      assert s[0..] == s;
    }
  }

  // ----- queues of one workload -----

  /** The waiters of one workload, in the order of the list. */
  function Of(s: seq<Waiter>, workload: string): (r: seq<Waiter>)
    ensures forall x :: x in r ==> x in s && x.workload == workload
  {
    if s == [] then []
    else if s[0].workload == workload then [s[0]] + Of(s[1..], workload)
    else Of(s[1..], workload)
  }

  lemma {:induction false} OfConcat(a: seq<Waiter>, b: seq<Waiter>, w: string)
    ensures Of(a + b, w) == Of(a, w) + Of(b, w)
  {
    if a == [] {
      assert a + b == b;
    } else {
      OfConcat(a[1..], b, w);
      assert (a + b)[1..] == a[1..] + b;
    }
  }

  lemma {:induction false} OfNone(s: seq<Waiter>, w: string)
    requires forall x :: x in s ==> x.workload != w
    ensures Of(s, w) == []
  {
    if s != [] {
      OfNone(s[1..], w);
    }
  }

  lemma {:induction false} OfAll(s: seq<Waiter>, w: string, x: Waiter)
    requires x in s && x.workload == w
    ensures x in Of(s, w)
  {
    if s[0] != x {
      assert x in s[1..];
      OfAll(s[1..], w, x);
    }
  }

  /** Taking the first waiter of a workload out of the list is taking the head of its queue. */
  lemma OfTakeHead(s: seq<Waiter>, i: nat, w: string)
    requires i < |s|
    requires forall j :: 0 <= j < i ==> s[j].workload != s[i].workload
    ensures w == s[i].workload ==> Of(s, w) != [] && Of(s, w)[0] == s[i]
    ensures Of(s[..i] + s[i + 1..], w) == if w == s[i].workload then Of(s, w)[1..] else Of(s, w)
  {
    assert s == s[..i] + ([s[i]] + s[i + 1..]);
    OfConcat(s[..i], [s[i]] + s[i + 1..], w);
    OfConcat([s[i]], s[i + 1..], w);
    OfConcat(s[..i], s[i + 1..], w);
    assert Of([s[i]], w) == if w == s[i].workload then [s[i]] else [];
    if w == s[i].workload {
      OfNone(s[..i], w);
    }
  }

  // ----- the method -----

  function Ids(s: seq<Waiter>): seq<Id> {
    seq(|s|, i requires 0 <= i < |s| => s[i].id)
  }

  ghost predicate ByTicket(s: seq<Waiter>) {
    forall i, j :: 0 <= i < j < |s| ==> s[i].ticket < s[j].ticket
  }

  /** The library sort the source calls with `a.seq - b.seq`. */
  function InsertByTicket(s: seq<Waiter>, x: Waiter): (r: seq<Waiter>)
    requires ByTicket(s) && forall y :: y in s ==> y.ticket != x.ticket
    ensures ByTicket(r) && Elems(r) == Elems(s) + {x}
  {
    if s == [] || x.ticket < s[0].ticket then
      ConsElems(x, s);
      [x] + s
    else
      var r := InsertByTicket(s[1..], x);
      HeadTailElems(s);
      ConsByTicket(s[0], r, Elems(s[1..]) + {x});
      [s[0]] + r
  }

  lemma ConsByTicket(x: Waiter, r: seq<Waiter>, elems: set<Waiter>)
    requires ByTicket(r) && Elems(r) == elems && forall y :: y in elems ==> x.ticket < y.ticket
    ensures ByTicket([x] + r) && Elems([x] + r) == {x} + elems
  {
    ConsElems(x, r);
    forall k | 0 <= k < |r| ensures x.ticket < r[k].ticket {
      assert r[k] in Elems(r);
    }
  }

  function SortByTicket(s: seq<Waiter>): (r: seq<Waiter>)
    requires forall i, j :: 0 <= i < j < |s| ==> s[i].ticket != s[j].ticket
    ensures ByTicket(r) && Elems(r) == Elems(s)
  {
    if s == [] then []
    else
      var r := SortByTicket(s[1..]);
      assert forall y :: y in r ==> y in Elems(s[1..]);
      HeadTailElems(s);
      InsertByTicket(r, s[0])
  }

  lemma {:induction false} OfByTicket(s: seq<Waiter>, w: string)
    requires ByTicket(s)
    ensures ByTicket(Of(s, w))
  {
    if s != [] {
      OfByTicket(s[1..], w);
    }
  }

  lemma {:induction false} OfInOrder(limits: Limits, s: seq<Waiter>, w: string)
    requires InOrder(limits, s)
    ensures ByTicket(Of(s, w))
  {
    if s != [] {
      OfInOrder(limits, s[1..], w);
    }
  }

  lemma OfElems(s: seq<Waiter>, w: string)
    ensures Elems(Of(s, w)) == set x | x in s && x.workload == w
  {
    forall x | x in s && x.workload == w ensures x in Of(s, w) {
      OfAll(s, w, x);
    }
  }

  lemma {:induction false} ByTicketUnique(a: seq<Waiter>, b: seq<Waiter>)
    requires ByTicket(a) && ByTicket(b) && Elems(a) == Elems(b)
    ensures a == b
  {
    var flat := Limits(0, None, None, map[]);
    RankedUnique(flat, a, b);
  }

  /** Sorting by rank or by age gives the same queue for one workload. */
  lemma SameQueues(limits: Limits, ranked: seq<Waiter>, sorted: seq<Waiter>, w: string)
    requires InOrder(limits, ranked) && ByTicket(sorted)
    requires w in limits.workloads
    requires Elems(ranked) == Known(limits, Elems(sorted))
    ensures Of(ranked, w) == Of(sorted, w)
  {
    OfInOrder(limits, ranked, w);
    OfByTicket(sorted, w);
    OfElems(ranked, w);
    OfElems(sorted, w);
    assert Elems(Of(ranked, w)) == Elems(Of(sorted, w)) by {
      forall x ensures x in Elems(Of(ranked, w)) <==> x in Elems(Of(sorted, w)) {
        assert x in Elems(ranked) <==> x in Known(limits, Elems(sorted));
      }
    }
    ByTicketUnique(Of(ranked, w), Of(sorted, w));
  }

  ghost predicate Lists(names: seq<string>, keys: set<string>) {
    NoDuplicates(names) && Elems(names) == keys
  }

  method CopyActive(activeByWorkload: map<string, nat>) returns (active: map<string, nat>, total: int)
    ensures active == activeByWorkload && total == Total(active)
  {
    active, total := map[], 0;
    var keys := activeByWorkload.Keys;
    while keys != {}
      invariant keys <= activeByWorkload.Keys
      invariant active == map w | w in activeByWorkload && w !in keys :: activeByWorkload[w]
      invariant total == Total(active)
      decreases |keys|
    {
      var w :| w in keys;
      SumUpdate(active, w, activeByWorkload[w]);
      active := active[w := activeByWorkload[w]];
      total := total + activeByWorkload[w];
      keys := keys - {w};
    }
  }

  /** The queues built from the waiters read so far. */
  ghost predicate QueuesOf(limits: Limits, queues: map<string, seq<Waiter>>, read: seq<Waiter>) {
    && (forall w :: w in queues ==> w in limits.workloads && queues[w] == Of(read, w))
    && (forall x :: x in read && x.workload in limits.workloads ==> x.workload in queues)
  }

  lemma OfPush(s: seq<Waiter>, x: Waiter, w: string)
    ensures Of(s + [x], w) == if w == x.workload then Of(s, w) + [x] else Of(s, w)
  {
    OfConcat(s, [x], w);
    assert Of([x], w) == if w == x.workload then [x] else [];
  }

  lemma PushKeepsQueues(limits: Limits, queues: map<string, seq<Waiter>>, read: seq<Waiter>, x: Waiter)
    requires QueuesOf(limits, queues, read)
    ensures x.workload !in limits.workloads ==> QueuesOf(limits, queues, read + [x])
    ensures x.workload in limits.workloads ==>
              QueuesOf(limits, queues[x.workload := if x.workload in queues then queues[x.workload] + [x] else [x]],
                       read + [x])
  {
    forall w ensures Of(read + [x], w) == if w == x.workload then Of(read, w) + [x] else Of(read, w) {
      OfPush(read, x, w);
    }
    if x.workload in limits.workloads && x.workload !in queues {
      OfNone(read, x.workload);
    }
  }

  method BuildQueues(limits: Limits, sorted: seq<Waiter>) returns (queues: map<string, seq<Waiter>>)
    ensures QueuesOf(limits, queues, sorted)
  {
    queues := map[];
    for i := 0 to |sorted|
      invariant QueuesOf(limits, queues, sorted[..i])
    {
      var waiter := sorted[i];
      assert sorted[..i + 1] == sorted[..i] + [waiter];
      PushKeepsQueues(limits, queues, sorted[..i], waiter);
      if waiter.workload !in limits.workloads {
        continue;
      }
      if waiter.workload in queues {
        queues := queues[waiter.workload := queues[waiter.workload] + [waiter]];
      } else {
        queues := queues[waiter.workload := [waiter]];
      }
    }
    assert sorted[..|sorted|] == sorted;
  }

  /** What remains to be added when the first `i` names have been read. */
  ghost function Remaining(all: map<string, int>, names: seq<string>, i: nat, except: string): map<string, int>
    requires i <= |names|
  {
    all - {except} - Elems(names[..i])
  }

  lemma ReadOneName(all: map<string, int>, names: seq<string>, i: nat, except: string)
    requires Lists(names, all.Keys) && i < |names|
    ensures names[i] in all
    ensures Sum(Remaining(all, names, i, except))
         == Sum(Remaining(all, names, i + 1, except)) + (if names[i] == except then 0 else all[names[i]])
  {
    var before, after := Remaining(all, names, i, except), Remaining(all, names, i + 1, except);
    assert names[i] in Elems(names);
    assert Elems(names[..i + 1]) == Elems(names[..i]) + {names[i]} by {
      assert names[..i + 1] == names[..i] + [names[i]];
    }
    if names[i] == except {
      assert before == after;
    } else {
      assert names[i] in before && before - {names[i]} == after;
      SumRemove(before, names[i]);
    }
  }

  /** `unmetReservations`, for any listing of the workload keys. */
  method UnmetReservations(limits: Limits, names: seq<string>, active: map<string, nat>, except: string)
    returns (sum: int)
    requires Lists(names, limits.workloads.Keys)
    ensures sum == UnmetExcept(limits, active, except)
  {
    sum := 0;
    ghost var all := Shortfalls(limits, active);
    assert Remaining(all, names, 0, except) == all - {except};
    for i := 0 to |names|
      invariant sum + Sum(Remaining(all, names, i, except)) == UnmetExcept(limits, active, except)
    {
      var name := names[i];
      ReadOneName(all, names, i, except);
      if name != except {
        sum := sum + Shortfall(limits.workloads[name], Active(active, name));
      }
    }
    assert names[..|names|] == names;
    assert Remaining(all, names, |names|, except) == map[];
  }

  /** The head of an admissible queue. */
  ghost predicate IsCandidate(limits: Limits, active: map<string, nat>, queues: map<string, seq<Waiter>>, x: Waiter) {
    && x.workload in queues && queues[x.workload] != [] && x == queues[x.workload][0]
    && Admissible(limits, active, x.workload)
  }

  /** Nothing that was looked at ranks before the best candidate so far. */
  ghost predicate BestSoFar(limits: Limits, active: map<string, nat>, queues: map<string, seq<Waiter>>,
                            pending: set<string>, best: Option<Waiter>) {
    && (best.Some? ==> IsCandidate(limits, active, queues, best.value))
    && forall w :: w in queues && w !in pending && queues[w] != [] && Admissible(limits, active, w) ==>
         best.Some? && !Before(limits, queues[w][0], best.value)
  }

  lemma LookedAt(limits: Limits, active: map<string, nat>, queues: map<string, seq<Waiter>>, pending: set<string>,
                 best: Option<Waiter>, w: string)
    requires BestSoFar(limits, active, queues, pending, best) && w in queues
    requires forall w, x :: w in queues && x in queues[w] ==> x.workload == w
    ensures queues[w] == [] || !Admissible(limits, active, w) ==> BestSoFar(limits, active, queues, pending - {w}, best)
    ensures queues[w] != [] && Admissible(limits, active, w) ==>
              BestSoFar(limits, active, queues, pending - {w},
                        if best.None? || Before(limits, queues[w][0], best.value) then Some(queues[w][0]) else best)
  {
    if queues[w] != [] {
      assert queues[w][0] in queues[w];
    }
  }

  /** The higher priority wins, and among equals the older request. */
  lemma BestWins(limits: Limits, active: map<string, nat>, queues: map<string, seq<Waiter>>, best: Option<Waiter>,
                 w: string)
    requires BestSoFar(limits, active, queues, {}, best)
    requires forall w :: w in queues ==> w in limits.workloads
    requires forall w, x :: w in queues && x in queues[w] ==> x.workload == w
    requires w in queues && queues[w] != [] && Admissible(limits, active, w)
    ensures best.Some? && best.value.workload in limits.workloads
    ensures var chosen, other := limits.workloads[best.value.workload].priority, limits.workloads[w].priority;
            chosen > other || (chosen == other && best.value.ticket <= queues[w][0].ticket)
  {
    assert queues[w][0] in queues[w];
  }

  /** Among the queues with an admissible head, the head that ranks first. */
  method PickBest(limits: Limits, names: seq<string>, active: map<string, nat>, total: int,
                  queues: map<string, seq<Waiter>>)
    returns (best: Option<Waiter>)
    requires Lists(names, limits.workloads.Keys) && total == Total(active)
    requires forall w :: w in queues ==> w in limits.workloads
    requires forall w, x :: w in queues && x in queues[w] ==> x.workload == w
    ensures best.Some? ==> IsCandidate(limits, active, queues, best.value)
    ensures forall w :: w in queues && queues[w] != [] && Admissible(limits, active, w) ==>
              best.Some? && !Before(limits, queues[w][0], best.value)
    ensures forall w :: w in queues && queues[w] != [] && Admissible(limits, active, w) ==>
              && best.value.workload in limits.workloads
              && limits.workloads[best.value.workload].priority >= limits.workloads[w].priority
              && (limits.workloads[best.value.workload].priority == limits.workloads[w].priority ==>
                    best.value.ticket <= queues[w][0].ticket)
  {
    best := None;
    var pending := queues.Keys;
    while pending != {}
      invariant pending <= queues.Keys
      invariant BestSoFar(limits, active, queues, pending, best)
      decreases |pending|
    {
      var workload :| workload in pending;
      LookedAt(limits, active, queues, pending, best, workload);
      pending := pending - {workload};
      if queues[workload] == [] {
        continue;
      }
      var head := queues[workload][0];
      assert head in queues[workload];
      var settings := limits.workloads[workload];
      if Active(active, workload) >= settings.maxConcurrent {
        continue;
      }
      var unmet := UnmetReservations(limits, names, active, workload);
      if total + 1 + unmet > limits.maxConcurrent {
        continue;
      }
      if best.None?
         || settings.priority > Priority(limits, best.value.workload)
         || (settings.priority == Priority(limits, best.value.workload) && head.ticket < best.value.ticket) {
        best := Some(head);
      }
    }
    forall w | w in queues && queues[w] != [] && Admissible(limits, active, w)
      ensures best.value.workload in limits.workloads
      ensures limits.workloads[best.value.workload].priority >= limits.workloads[w].priority
      ensures limits.workloads[best.value.workload].priority == limits.workloads[w].priority ==>
                best.value.ticket <= queues[w][0].ticket
    {
      BestWins(limits, active, queues, best, w);
    }
  }

  lemma FirstOf(s: seq<Waiter>, k: nat)
    requires k < |s|
    ensures Of(s, s[k].workload) != []
    ensures exists j :: 0 <= j <= k && s[j].workload == s[k].workload && s[j] == Of(s, s[k].workload)[0]
    decreases k
  {
    if forall j :: 0 <= j < k ==> s[j].workload != s[k].workload {
      OfTakeHead(s, k, s[k].workload);
    } else {
      var j :| 0 <= j < k && s[j].workload == s[k].workload;
      FirstOf(s, j);
    }
  }

  /** The best head over all queues is the first admissible waiter in rank order. */
  lemma BestIsFirst(limits: Limits, active: map<string, nat>, blocked: seq<Waiter>, rest: seq<Waiter>, best: Waiter)
    returns (i: nat)
    requires InOrder(limits, rest)
    requires forall x :: x in blocked ==> !Admissible(limits, active, x.workload)
    requires Admissible(limits, active, best.workload)
    requires Of(blocked + rest, best.workload) != [] && best == Of(blocked + rest, best.workload)[0]
    requires forall x :: x in rest && Admissible(limits, active, x.workload) ==>
               Of(blocked + rest, x.workload) != [] && !Before(limits, Of(blocked + rest, x.workload)[0], best)
    ensures i < |rest| && rest[i] == best
    ensures forall j :: 0 <= j < i ==> !Admissible(limits, active, rest[j].workload)
  {
    assert best in Of(blocked + rest, best.workload);
    assert best in rest;
    i :| 0 <= i < |rest| && rest[i] == best;
    forall j | 0 <= j < i ensures !Admissible(limits, active, rest[j].workload) {
      if Admissible(limits, active, rest[j].workload) {
        var w := rest[j].workload;
        assert rest[j] in rest;
        OfConcat(blocked, rest, w);
        OfNone(blocked, w);
        FirstOf(rest, j);
        assert false;
      }
    }
  }

  /** During a pass: the queues hold the waiters already passed over and those still to come. */
  ghost predicate PassState(limits: Limits, active: map<string, nat>, queues: map<string, seq<Waiter>>,
                            blocked: seq<Waiter>, rest: seq<Waiter>) {
    && QueuesOf(limits, queues, blocked + rest)
    && (forall x :: x in blocked + rest ==> x.workload in limits.workloads)
    && InOrder(limits, rest)
    && (forall x :: x in blocked ==> !Admissible(limits, active, x.workload))
  }

  lemma StartOfPass(limits: Limits, active: map<string, nat>, queues: map<string, seq<Waiter>>,
                    sorted: seq<Waiter>, ranked: seq<Waiter>)
    requires QueuesOf(limits, queues, sorted) && ByTicket(sorted)
    requires InOrder(limits, ranked) && Elems(ranked) == Known(limits, Elems(sorted))
    ensures PassState(limits, active, queues, [], ranked)
  {
    assert [] + ranked == ranked;
    forall x | x in ranked ensures x.workload in limits.workloads && x.workload in queues {
      assert x in Elems(ranked) && x in Elems(sorted);
    }
    forall w | w in queues ensures queues[w] == Of(ranked, w) {
      SameQueues(limits, ranked, sorted, w);
    }
  }

  lemma SweepGrantsAt(limits: Limits, active: map<string, nat>, s: seq<Waiter>, i: nat)
    requires i < |s| && Admissible(limits, active, s[i].workload)
    requires forall j :: 0 <= j < i ==> !Admissible(limits, active, s[j].workload)
    ensures Sweep(limits, active, s) == [s[i]] + Sweep(limits, Grant(active, s[i].workload), s[i + 1..])
  {
    SweepSkips(limits, active, s, i);
    assert s[i..][0] == s[i] && s[i..][1..] == s[i + 1..];
  }

  lemma TakeFromQueues(limits: Limits, queues: map<string, seq<Waiter>>, all: seq<Waiter>, k: nat)
    requires QueuesOf(limits, queues, all) && k < |all| && all[k].workload in queues
    requires forall j :: 0 <= j < k ==> all[j].workload != all[k].workload
    ensures queues[all[k].workload] != [] && queues[all[k].workload][0] == all[k]
    ensures QueuesOf(limits, queues[all[k].workload := queues[all[k].workload][1..]], all[..k] + all[k + 1..])
  {
    forall w | w in queues
      ensures w == all[k].workload ==> queues[w] != [] && queues[w][0] == all[k]
      ensures Of(all[..k] + all[k + 1..], w) == if w == all[k].workload then queues[w][1..] else queues[w]
    {
      OfTakeHead(all, k, w);
    }
    forall x | x in all[..k] + all[k + 1..] && x.workload in limits.workloads ensures x.workload in queues {
      assert x in all;
    }
  }

  /** The best head is the first waiter to come that is admissible. */
  lemma FindBest(limits: Limits, active: map<string, nat>, queues: map<string, seq<Waiter>>,
                 blocked: seq<Waiter>, rest: seq<Waiter>, head: Waiter)
    returns (i: nat)
    requires PassState(limits, active, queues, blocked, rest)
    requires head.workload in queues && queues[head.workload] != [] && head == queues[head.workload][0]
    requires Admissible(limits, active, head.workload)
    requires forall w :: w in queues && queues[w] != [] && Admissible(limits, active, w) ==>
               !Before(limits, queues[w][0], head)
    ensures i < |rest| && rest[i] == head
    ensures forall j :: 0 <= j < i ==> !Admissible(limits, active, rest[j].workload)
  {
    var all := blocked + rest;
    forall x | x in rest ensures x.workload in queues && Of(all, x.workload) != [] {
      assert x in all;
      OfAll(all, x.workload, x);
    }
    i := BestIsFirst(limits, active, blocked, rest, head);
  }

  /** Granting the first admissible waiter leaves the blocked ones before it blocked. */
  lemma GrantFirst(limits: Limits, active: map<string, nat>, queues: map<string, seq<Waiter>>,
                   blocked: seq<Waiter>, rest: seq<Waiter>, i: nat)
    requires PassState(limits, active, queues, blocked, rest)
    requires i < |rest| && Admissible(limits, active, rest[i].workload)
    requires rest[i].workload in queues && queues[rest[i].workload] != []
    requires forall j :: 0 <= j < i ==> !Admissible(limits, active, rest[j].workload)
    ensures PassState(limits, Grant(active, rest[i].workload),
                      queues[rest[i].workload := queues[rest[i].workload][1..]], blocked + rest[..i], rest[i + 1..])
  {
    var all, k, w := blocked + rest, |blocked| + i, rest[i].workload;
    assert all[..k] == blocked + rest[..i] && all[k + 1..] == rest[i + 1..] && all[k] == rest[i];
    forall x | x in blocked + rest[..i]
      ensures !Admissible(limits, active, x.workload) && !Admissible(limits, Grant(active, w), x.workload)
    {
      StaysBlocked(limits, active, w, x.workload);
    }
    forall j | 0 <= j < k ensures all[j].workload != w {
      assert all[j] in blocked + rest[..i];
    }
    TakeFromQueues(limits, queues, all, k);
    forall x | x in blocked + rest[..i] + rest[i + 1..] ensures x.workload in limits.workloads {
      assert x in all;
    }
  }

  lemma PushTaken(taken: seq<Waiter>, head: Waiter, later: seq<Waiter>)
    ensures Ids(taken + [head]) == Ids(taken) + [head.id]
    ensures taken + ([head] + later) == taken + [head] + later
  {
  }

  lemma NothingToGrant(limits: Limits, active: map<string, nat>, queues: map<string, seq<Waiter>>,
                       blocked: seq<Waiter>, rest: seq<Waiter>)
    requires PassState(limits, active, queues, blocked, rest)
    requires Total(active) >= limits.maxConcurrent
          || forall w :: w in queues && queues[w] != [] ==> !Admissible(limits, active, w)
    ensures Sweep(limits, active, rest) == []
  {
    forall j | 0 <= j < |rest| ensures !Admissible(limits, active, rest[j].workload) {
      assert rest[j] in blocked + rest;
      OfAll(blocked + rest, rest[j].workload, rest[j]);
      UnmetNonNegative(limits, active, rest[j].workload);
    }
    SweepSkips(limits, active, rest, |rest|);
  }

  /** The `while (total < maxConcurrent)` loop. */
  method GrantLoop(limits: Limits, names: seq<string>, activeAtStart: map<string, nat>, totalAtStart: int,
                   queuesAtStart: map<string, seq<Waiter>>, ghost ranked: seq<Waiter>)
    returns (grants: seq<Id>)
    requires Lists(names, limits.workloads.Keys) && totalAtStart == Total(activeAtStart)
    requires PassState(limits, activeAtStart, queuesAtStart, [], ranked)
    ensures grants == Ids(Sweep(limits, activeAtStart, ranked))
  {
    var active, total, queues := activeAtStart, totalAtStart, queuesAtStart;
    grants := [];
    ghost var taken: seq<Waiter>, blocked: seq<Waiter>, rest := [], [], ranked;
    while total < limits.maxConcurrent
      invariant total == Total(active)
      invariant PassState(limits, active, queues, blocked, rest)
      invariant grants == Ids(taken)
      invariant taken + Sweep(limits, active, rest) == Sweep(limits, activeAtStart, ranked)
      decreases limits.maxConcurrent - total
    {
      var best := PickBest(limits, names, active, total, queues);
      if best.None? {
        break;
      }
      var head := best.value;
      ghost var i := FindBest(limits, active, queues, blocked, rest, head);
      GrantFirst(limits, active, queues, blocked, rest, i);
      SweepGrantsAt(limits, active, rest, i);
      PushTaken(taken, head, Sweep(limits, Grant(active, head.workload), rest[i + 1..]));
      GrantShortfalls(limits, active, head.workload);
      queues := queues[head.workload := queues[head.workload][1..]];
      active := Grant(active, head.workload);
      total := total + 1;
      grants := grants + [head.id];
      blocked, rest, taken := blocked + rest[..i], rest[i + 1..], taken + [head];
    }
    NothingToGrant(limits, active, queues, blocked, rest);
  }

  /**
   `selectConcurrencyGrants`. The result is a function of the limits, the active
   counts and the set of waiters only: neither the order of the waiter array nor
   that of the workload keys shows.
   */
  method SelectGrants(limits: Limits, names: seq<string>, activeByWorkload: map<string, nat>, waiters: seq<Waiter>)
    returns (grants: seq<Id>)
    requires Lists(names, limits.workloads.Keys)
    requires forall i, j :: 0 <= i < j < |waiters| ==> waiters[i].ticket != waiters[j].ticket
    ensures DistinctTickets(Elems(waiters))
    ensures grants == Ids(Grants(limits, activeByWorkload, Elems(waiters)))
  {
    var active, total := CopyActive(activeByWorkload);
    var sorted := SortByTicket(waiters);
    var queues := BuildQueues(limits, sorted);
    ghost var ranked := Ranked(limits, Known(limits, Elems(waiters)));
    StartOfPass(limits, active, queues, sorted, ranked);
    grants := GrantLoop(limits, names, active, total, queues, ranked);
  }
}

/** What one allocation pass guarantees, whatever the active slots and the queue. */
module PolicyTheorems {
  import opened Prelude
  import opened Sums
  import opened Policy

  // ----- shape of the grant list -----

  lemma {:induction false} SweepElems(limits: Limits, active: map<string, nat>, s: seq<Waiter>, x: Waiter)
    requires x in Sweep(limits, active, s)
    ensures x in s && x.workload in limits.workloads
    decreases s
  {
    if Admissible(limits, active, s[0].workload) {
      if x != s[0] {
        SweepElems(limits, Grant(active, s[0].workload), s[1..], x);
      }
    } else {
      SweepElems(limits, active, s[1..], x);
    }
  }

  lemma {:induction false} SweepInOrder(limits: Limits, active: map<string, nat>, s: seq<Waiter>)
    requires InOrder(limits, s)
    ensures InOrder(limits, Sweep(limits, active, s))
    decreases s
  {
    if s != [] {
      if Admissible(limits, active, s[0].workload) {
        var later := Sweep(limits, Grant(active, s[0].workload), s[1..]);
        SweepInOrder(limits, Grant(active, s[0].workload), s[1..]);
        forall k | 0 <= k < |later| ensures Before(limits, s[0], later[k]) {
          SweepElems(limits, Grant(active, s[0].workload), s[1..], later[k]);
          var j :| 0 <= j < |s[1..]| && s[1..][j] == later[k];
          assert s[j + 1] == later[k];
        }
      } else {
        SweepInOrder(limits, active, s[1..]);
      }
    }
  }

  lemma {:induction false} BlockedGetsNothing(limits: Limits, active: map<string, nat>, s: seq<Waiter>, w: string)
    requires !Admissible(limits, active, w)
    ensures Of(Sweep(limits, active, s), w) == []
    decreases s
  {
    if s != [] {
      if Admissible(limits, active, s[0].workload) {
        StaysBlocked(limits, active, s[0].workload, w);
        BlockedGetsNothing(limits, Grant(active, s[0].workload), s[1..], w);
      } else {
        BlockedGetsNothing(limits, active, s[1..], w);
      }
    }
  }

  lemma {:induction false} SweepTakesPrefix(limits: Limits, active: map<string, nat>, s: seq<Waiter>, w: string)
    ensures Of(Sweep(limits, active, s), w) <= Of(s, w)
    decreases s
  {
    if s != [] {
      if Admissible(limits, active, s[0].workload) {
        SweepTakesPrefix(limits, Grant(active, s[0].workload), s[1..], w);
      } else if s[0].workload == w {
        BlockedGetsNothing(limits, active, s, w);
      } else {
        SweepTakesPrefix(limits, active, s[1..], w);
      }
    }
  }

  /** Grants come out in rank order, and each workload's grants are the front of its FIFO queue. */
  lemma GrantsAreFairAndFifo(limits: Limits, active: map<string, nat>, waiters: set<Waiter>, w: string)
    requires DistinctTickets(waiters)
    ensures InOrder(limits, Grants(limits, active, waiters))
    ensures Elems(Grants(limits, active, waiters)) <= Known(limits, waiters)
    ensures ByTicket(Of(Ranked(limits, Known(limits, waiters)), w))
    ensures Of(Grants(limits, active, waiters), w) <= Of(Ranked(limits, Known(limits, waiters)), w)
  {
    var s := Ranked(limits, Known(limits, waiters));
    SweepInOrder(limits, active, s);
    SweepTakesPrefix(limits, active, s, w);
    OfInOrder(limits, s, w);
    forall x | x in Sweep(limits, active, s) ensures x in Known(limits, waiters) {
      SweepElems(limits, active, s, x);
      assert x in Elems(s);
    }
  }

  /** Of two grants the earlier one has the higher priority, or the same priority and the older request. */
  lemma HigherPriorityGoesFirst(limits: Limits, active: map<string, nat>, waiters: set<Waiter>, i: nat, j: nat)
    requires DistinctTickets(waiters)
    requires i < j < |Grants(limits, active, waiters)|
    ensures var x, y := Grants(limits, active, waiters)[i], Grants(limits, active, waiters)[j];
            && x.workload in limits.workloads && y.workload in limits.workloads
            && limits.workloads[x.workload].priority >= limits.workloads[y.workload].priority
            && (limits.workloads[x.workload].priority == limits.workloads[y.workload].priority ==> x.ticket < y.ticket)
  {
    var g := Grants(limits, active, waiters);
    GrantsAreFairAndFifo(limits, active, waiters, "");
    assert g[i] in Elems(g) && g[j] in Elems(g);
    assert Before(limits, g[i], g[j]);
  }

  /** What comes before a request that the sweep grants was granted itself, or not admissible at that moment. */
  lemma {:induction false} PassedOver(limits: Limits, active: map<string, nat>, s: seq<Waiter>, x: Waiter, k: nat)
    requires InOrder(limits, s) && x in s && k < |Sweep(limits, active, s)|
    requires Before(limits, x, Sweep(limits, active, s)[k]) && x !in Sweep(limits, active, s)[..k]
    ensures !Admissible(limits, GrantAll(active, Sweep(limits, active, s)[..k]), x.workload)
    decreases s
  {
    var g := Sweep(limits, active, s);
    SweepElems(limits, active, s, g[k]);
    if Admissible(limits, active, s[0].workload) {
      var next := Grant(active, s[0].workload);
      if k > 0 {
        assert g[..k] == [s[0]] + Sweep(limits, next, s[1..])[..k - 1];
        assert x in s[1..];
        PassedOver(limits, next, s[1..], x, k - 1);
      }
    } else if x == s[0] {
      forall y | y in g[..k] ensures y.workload in limits.workloads {
        SweepElems(limits, active, s, y);
      }
      StaysBlockedAll(limits, active, g[..k], x.workload);
    } else {
      PassedOver(limits, active, s[1..], x, k);
    }
  }

  /**
   A request is passed over in favour of one with a lower priority, or of a younger one
   with the same priority, only while its workload had no room.
   */
  lemma OnlyBlockedRequestsArePassedOver(limits: Limits, active: map<string, nat>, waiters: set<Waiter>, x: Waiter,
                                         k: nat)
    requires DistinctTickets(waiters) && x in waiters && x.workload in limits.workloads
    requires k < |Grants(limits, active, waiters)| && x !in Grants(limits, active, waiters)[..k]
    ensures var g := Grants(limits, active, waiters);
            && g[k].workload in limits.workloads
            && (limits.workloads[x.workload].priority > limits.workloads[g[k].workload].priority
                || (limits.workloads[x.workload].priority == limits.workloads[g[k].workload].priority
                    && x.ticket < g[k].ticket) ==>
                  !Admissible(limits, GrantAll(active, g[..k]), x.workload))
  {
    var g, s := Grants(limits, active, waiters), Ranked(limits, Known(limits, waiters));
    SweepElems(limits, active, s, g[k]);
    assert x in Elems(s);
    if Before(limits, x, g[k]) {
      PassedOver(limits, active, s, x, k);
    }
  }

  // ----- the pool after a pass -----

  lemma {:induction false} GrantAllCounts(limits: Limits, active: map<string, nat>, granted: seq<Waiter>, w: string)
    ensures Active(GrantAll(active, granted), w) == Active(active, w) + |Of(granted, w)|
    ensures Total(GrantAll(active, granted)) == Total(active) + |granted|
    decreases granted
  {
    if granted != [] {
      var v := granted[0].workload;
      SumUpdate(active, v, Active(active, v) + 1);
      GrantAllCounts(limits, Grant(active, v), granted[1..], w);
    }
  }

  lemma GrantKeepsLoad(limits: Limits, active: map<string, nat>, v: string)
    requires Admissible(limits, active, v) && Load(limits, active) <= limits.maxConcurrent
    ensures Load(limits, Grant(active, v)) <= limits.maxConcurrent
  {
    LoadSplit(limits, active, v);
    LoadSplit(limits, Grant(active, v), v);
    GrantShortfalls(limits, active, v);
    var one := Shortfall(limits.workloads[v], Active(active, v) + 1);
    assert Shortfalls(limits, active)[v := one] - {v} == Shortfalls(limits, active) - {v};
  }

  /** Every slot in use and every unmet reservation fit under the limit, and no ceiling is passed. */
  ghost predicate Bounded(limits: Limits, active: map<string, nat>) {
    && Load(limits, active) <= limits.maxConcurrent
    && forall w {:trigger Active(active, w)} ::
         w in limits.workloads ==> Active(active, w) <= limits.workloads[w].maxConcurrent
  }

  /** A pass keeps slots and reservations together under the limit, whatever the ceilings. */
  lemma {:induction false} SweepKeepsLoad(limits: Limits, active: map<string, nat>, s: seq<Waiter>)
    requires Load(limits, active) <= limits.maxConcurrent
    ensures Load(limits, GrantAll(active, Sweep(limits, active, s))) <= limits.maxConcurrent
    decreases s
  {
    if s != [] {
      if Admissible(limits, active, s[0].workload) {
        GrantKeepsLoad(limits, active, s[0].workload);
        SweepKeepsLoad(limits, Grant(active, s[0].workload), s[1..]);
      } else {
        SweepKeepsLoad(limits, active, s[1..]);
      }
    }
  }

  /** It takes no workload that it grants to past its ceiling. */
  lemma {:induction false} SweepKeepsCeiling(limits: Limits, active: map<string, nat>, s: seq<Waiter>, w: string)
    requires w in limits.workloads
    ensures var g := Sweep(limits, active, s);
            Active(GrantAll(active, g), w) <= limits.workloads[w].maxConcurrent
            || (Of(g, w) == [] && Active(GrantAll(active, g), w) == Active(active, w))
    decreases s
  {
    if s != [] {
      if Admissible(limits, active, s[0].workload) {
        SweepKeepsCeiling(limits, Grant(active, s[0].workload), s[1..], w);
      } else {
        SweepKeepsCeiling(limits, active, s[1..], w);
      }
    }
  }

  lemma {:induction false} SweepKeepsBounds(limits: Limits, active: map<string, nat>, s: seq<Waiter>)
    requires Bounded(limits, active)
    ensures Bounded(limits, GrantAll(active, Sweep(limits, active, s)))
    decreases s
  {
    if s != [] {
      if Admissible(limits, active, s[0].workload) {
        GrantKeepsLoad(limits, active, s[0].workload);
        SweepKeepsBounds(limits, Grant(active, s[0].workload), s[1..]);
      } else {
        SweepKeepsBounds(limits, active, s[1..]);
      }
    }
  }

  lemma {:induction false} LeftBehindIsBlocked(limits: Limits, active: map<string, nat>, s: seq<Waiter>, x: Waiter)
    requires InOrder(limits, s) && x in s && x !in Sweep(limits, active, s)
    ensures !Admissible(limits, GrantAll(active, Sweep(limits, active, s)), x.workload)
    decreases s
  {
    var next := if Admissible(limits, active, s[0].workload) then Grant(active, s[0].workload) else active;
    if x == s[0] {
      forall y | y in Sweep(limits, active, s[1..]) ensures y.workload in limits.workloads {
        SweepElems(limits, active, s[1..], y);
      }
      StaysBlockedAll(limits, active, Sweep(limits, active, s[1..]), x.workload);
    } else {
      LeftBehindIsBlocked(limits, next, s[1..], x);
    }
  }

  /** After a pass no waiter left in the queue could be granted. */
  lemma PassLeavesNobodyAdmissible(limits: Limits, active: map<string, nat>, waiters: set<Waiter>, x: Waiter)
    requires DistinctTickets(waiters)
    requires x in waiters && x !in Grants(limits, active, waiters)
    ensures !Admissible(limits, GrantAll(active, Grants(limits, active, waiters)), x.workload)
  {
    var s := Ranked(limits, Known(limits, waiters));
    if x.workload in limits.workloads {
      assert x in Elems(s);
      LeftBehindIsBlocked(limits, active, s, x);
    }
  }

  /** A workload that has not used up its reservation always has room. */
  lemma ReservedIsAdmissible(limits: Limits, active: map<string, nat>, w: string)
    requires Valid(limits) && Bounded(limits, active) && w in limits.workloads
    requires Active(active, w) < limits.workloads[w].reserved
    ensures Admissible(limits, active, w)
  {
    LoadSplit(limits, active, w);
  }

  ghost function ReservedMap(limits: Limits): map<string, int> {
    map v | v in limits.workloads :: limits.workloads[v].reserved
  }

  /** The slots the other workloads can claim against workload `w`. */
  ghost function OthersReserved(limits: Limits, w: string): int {
    Sum(ReservedMap(limits) - {w})
  }

  /** What a workload claims of the capacity: the slots it uses, or its reservation if that is more. */
  ghost function Claims(limits: Limits, active: map<string, nat>): map<string, int> {
    map w | w in limits.workloads ::
      if Active(active, w) >= limits.workloads[w].reserved then Active(active, w) else limits.workloads[w].reserved
  }

  lemma LoadIsClaims(limits: Limits, active: map<string, nat>)
    requires active.Keys <= limits.workloads.Keys
    ensures Load(limits, active) == Sum(Claims(limits, active))
  {
    var held: map<string, int> := map w | w in limits.workloads.Keys :: Active(active, w);
    FillWithZeros(active, limits.workloads.Keys);
    SumAdd(Claims(limits, active), held, Shortfalls(limits, active));
  }

  /** One workload stays clear of everything the others have reserved. */
  lemma OthersReservationsStayFree(limits: Limits, active: map<string, nat>, w: string)
    requires Bounded(limits, active) && active.Keys <= limits.workloads.Keys && w in limits.workloads
    ensures Active(active, w) + OthersReserved(limits, w) <= limits.maxConcurrent
  {
    LoadIsClaims(limits, active);
    SumRemove(Claims(limits, active), w);
    SumMonotone(ReservedMap(limits) - {w}, Claims(limits, active) - {w});
  }

  lemma {:induction false} FillWithZeros(active: map<string, nat>, keys: set<string>)
    requires active.Keys <= keys
    ensures Sum(active) == Sum(map v | v in keys :: Active(active, v))
    decreases |keys|
  {
    var filled: map<string, int> := map v | v in keys :: Active(active, v);
    if keys == {} {
      assert active == map[] && filled == map[];
    } else {
      var k :| k in keys;
      var fewer := active - {k};
      FillWithZeros(fewer, keys - {k});
      assert filled - {k} == map v | v in keys - {k} :: Active(fewer, v);
      SumRemove(filled, k);
      if k in active {
        SumRemove(active, k);
      } else {
        assert fewer == active;
      }
    }
  }

  // ----- optimality -----

  ghost function Count(waiters: set<Waiter>, w: string): nat {
    |set x | x in waiters && x.workload == w|
  }

  /** The pool after handing a slot to each waiter of a set, in whatever order. */
  ghost function Joined(active: map<string, nat>, chosen: set<Waiter>): map<string, nat> {
    map w | w in active.Keys + (set x | x in chosen :: x.workload) :: Active(active, w) + Count(chosen, w)
  }

  lemma JoinedActive(active: map<string, nat>, chosen: set<Waiter>, w: string)
    ensures Active(Joined(active, chosen), w) == Active(active, w) + Count(chosen, w)
  {
    if w !in Joined(active, chosen) {
      assert (set x | x in chosen && x.workload == w) == {};
    }
  }

  lemma CountRemove(waiters: set<Waiter>, y: Waiter, w: string)
    requires y in waiters
    ensures Count(waiters, w) == Count(waiters - {y}, w) + (if w == y.workload then 1 else 0)
  {
    var here := set x | x in waiters && x.workload == w;
    assert (set x | x in waiters - {y} && x.workload == w) == here - {y};
  }

  lemma JoinedStep(active: map<string, nat>, chosen: set<Waiter>, y: Waiter)
    requires y in chosen
    ensures Joined(active, chosen) == Grant(Joined(active, chosen - {y}), y.workload)
  {
    var full, fewer := Joined(active, chosen), Grant(Joined(active, chosen - {y}), y.workload);
    assert (set x | x in chosen :: x.workload) == (set x | x in chosen - {y} :: x.workload) + {y.workload} by {
      assert chosen == (chosen - {y}) + {y};
    }
    forall w | w in full ensures full[w] == fewer[w] {
      CountRemove(chosen, y, w);
      JoinedActive(active, chosen - {y}, w);
    }
  }

  lemma {:induction false} JoinedTotal(active: map<string, nat>, chosen: set<Waiter>)
    ensures Total(Joined(active, chosen)) == Total(active) + |chosen|
    decreases |chosen|
  {
    if chosen == {} {
      forall w | w in Joined(active, chosen) ensures w in active && Joined(active, chosen)[w] == active[w] {
        assert (set x | x in chosen && x.workload == w) == {};
      }
      assert Joined(active, chosen) == active;
    } else {
      var y :| y in chosen;
      JoinedTotal(active, chosen - {y});
      JoinedStep(active, chosen, y);
      var fewer := Joined(active, chosen - {y});
      SumUpdate(fewer, y.workload, Active(fewer, y.workload) + 1);
    }
  }

  /** A set of waiters that could hold slots together: ceilings and reservations respected. */
  ghost predicate Feasible(limits: Limits, active: map<string, nat>, chosen: set<Waiter>) {
    && Load(limits, Joined(active, chosen)) <= limits.maxConcurrent
    && forall x :: x in chosen ==>
         && x.workload in limits.workloads
         && Active(active, x.workload) + Count(chosen, x.workload) <= limits.workloads[x.workload].maxConcurrent
  }

  lemma InOrderNoDuplicates(limits: Limits, s: seq<Waiter>)
    requires InOrder(limits, s)
    ensures NoDuplicates(s)
  {
  }

  lemma GrantsCount(limits: Limits, active: map<string, nat>, waiters: set<Waiter>, w: string)
    requires DistinctTickets(waiters)
    ensures |Of(Grants(limits, active, waiters), w)| == Count(Elems(Grants(limits, active, waiters)), w)
  {
    var g := Grants(limits, active, waiters);
    GrantsAreFairAndFifo(limits, active, waiters, w);
    OfElems(g, w);
    OfInOrder(limits, g, w);
    assert NoDuplicates(Of(g, w));
    ListingSize(Of(g, w));
    assert (set x | x in Elems(g) && x.workload == w) == Elems(Of(g, w));
  }

  /** A workload that some rival set serves more often than the pass did was blocked for lack of capacity. */
  lemma RivalMeansFull(limits: Limits, active: map<string, nat>, waiters: set<Waiter>, chosen: set<Waiter>, w: string)
    requires DistinctTickets(waiters) && Load(limits, active) <= limits.maxConcurrent
    requires chosen <= waiters && Feasible(limits, active, chosen)
    requires Count(chosen, w) > |Of(Grants(limits, active, waiters), w)|
    ensures var after := GrantAll(active, Grants(limits, active, waiters));
            && w in limits.workloads
            && Shortfall(limits.workloads[w], Active(after, w)) == 0
            && Load(limits, after) == limits.maxConcurrent
  {
    var g := Grants(limits, active, waiters);
    var after := GrantAll(active, g);
    GrantsCount(limits, active, waiters, w);
    var x := MoreThan(chosen, Elems(g), w);
    PassLeavesNobodyAdmissible(limits, active, waiters, x);
    GrantAllCounts(limits, active, g, w);
    SweepKeepsLoad(limits, active, Ranked(limits, Known(limits, waiters)));
    LoadSplit(limits, after, w);
  }

  lemma MoreThan(a: set<Waiter>, b: set<Waiter>, w: string) returns (x: Waiter)
    requires Count(a, w) > Count(b, w)
    ensures x in a && x !in b && x.workload == w
  {
    var inA, inB := set y | y in a && y.workload == w, set y | y in b && y.workload == w;
    if inA <= inB {
      SubsetSize(inA, inB);
    }
    x :| x in inA && x !in inB;
  }

  lemma SubsetSize<T>(a: set<T>, b: set<T>)
    requires a <= b
    ensures |a| <= |b|
  {
    assert b == a + (b - a);
  }

  /** If a rival set serves some workload more often, the capacity was used up, and the rival cannot have more. */
  lemma RivalIsNoLarger(limits: Limits, active: map<string, nat>, waiters: set<Waiter>, chosen: set<Waiter>, w: string)
    requires DistinctTickets(waiters) && Load(limits, active) <= limits.maxConcurrent
    requires chosen <= waiters && Feasible(limits, active, chosen)
    requires Count(chosen, w) > |Of(Grants(limits, active, waiters), w)|
    ensures |chosen| <= |Grants(limits, active, waiters)|
  {
    var g := Grants(limits, active, waiters);
    var after, rival := GrantAll(active, g), Joined(active, chosen);
    RivalMeansFull(limits, active, waiters, chosen, w);
    forall v | v in limits.workloads
      ensures Shortfalls(limits, after)[v] <= Shortfalls(limits, rival)[v]
    {
      GrantAllCounts(limits, active, g, v);
      JoinedActive(active, chosen, v);
      if Count(chosen, v) > |Of(g, v)| {
        RivalMeansFull(limits, active, waiters, chosen, v);
      }
    }
    SumMonotone(Shortfalls(limits, after), Shortfalls(limits, rival));
    GrantAllCounts(limits, active, g, "");
    JoinedTotal(active, chosen);
  }

  /** If the pass serves every workload at least as often, it serves at least as many. */
  lemma ServedEverywhere(limits: Limits, active: map<string, nat>, waiters: set<Waiter>, chosen: set<Waiter>)
    requires DistinctTickets(waiters)
    requires forall w :: Count(chosen, w) <= |Of(Grants(limits, active, waiters), w)|
    ensures |chosen| <= |Grants(limits, active, waiters)|
  {
    var g := Grants(limits, active, waiters);
    GrantsAreFairAndFifo(limits, active, waiters, "");
    InOrderNoDuplicates(limits, g);
    ListingSize(g);
    forall w ensures Count(chosen, w) <= Count(Elems(g), w) {
      GrantsCount(limits, active, waiters, w);
    }
    CountsBoundSize(chosen, Elems(g));
  }

  /**
   The pass is optimal: from any state that honours the reservations, no set of
   waiters that respects the ceilings and the reservations is larger than the set
   granted, whatever the priorities.
   */
  lemma PassIsOptimal(limits: Limits, active: map<string, nat>, waiters: set<Waiter>, chosen: set<Waiter>)
    requires DistinctTickets(waiters) && Load(limits, active) <= limits.maxConcurrent
    requires chosen <= waiters && Feasible(limits, active, chosen)
    ensures |chosen| <= |Grants(limits, active, waiters)|
  {
    if w :| Count(chosen, w) > |Of(Grants(limits, active, waiters), w)| {
      RivalIsNoLarger(limits, active, waiters, chosen, w);
    } else {
      ServedEverywhere(limits, active, waiters, chosen);
    }
  }

  lemma {:induction false} CountsBoundSize(a: set<Waiter>, b: set<Waiter>)
    requires forall w :: Count(a, w) <= Count(b, w)
    ensures |a| <= |b|
    decreases |a|
  {
    if a != {} {
      var x :| x in a;
      var inA, inB := set y | y in a && y.workload == x.workload, set y | y in b && y.workload == x.workload;
      assert Count(a, x.workload) == |inA| && Count(b, x.workload) == |inB| && x in inA;
      forall w ensures Count(a - inA, w) <= Count(b - inB, w) {
        var lessA, lessB := set y | y in a - inA && y.workload == w, set y | y in b - inB && y.workload == w;
        if w == x.workload {
          assert lessA == {};
        } else {
          assert Count(a, w) <= Count(b, w);
          assert lessA == set y | y in a && y.workload == w;
          assert lessB == set y | y in b && y.workload == w;
        }
      }
      CountsBoundSize(a - inA, b - inB);
      assert a == (a - inA) + inA && b == (b - inB) + inB;
    }
  }

  /** The pool is the same whether the grants are handed out one by one or counted as a set. */
  lemma SamePool(limits: Limits, active: map<string, nat>, waiters: set<Waiter>, w: string)
    requires DistinctTickets(waiters)
    ensures var g := Grants(limits, active, waiters);
            && Active(Joined(active, Elems(g)), w) == Active(active, w) + Count(Elems(g), w)
            && Active(GrantAll(active, g), w) == Active(active, w) + Count(Elems(g), w)
  {
    var g := Grants(limits, active, waiters);
    JoinedActive(active, Elems(g), w);
    GrantAllCounts(limits, active, g, w);
    GrantsCount(limits, active, waiters, w);
  }

  lemma SameLoad(limits: Limits, active: map<string, nat>, waiters: set<Waiter>)
    requires DistinctTickets(waiters)
    ensures var g := Grants(limits, active, waiters);
            Load(limits, Joined(active, Elems(g))) == Load(limits, GrantAll(active, g))
  {
    var g := Grants(limits, active, waiters);
    var after, joined := GrantAll(active, g), Joined(active, Elems(g));
    GrantsAreFairAndFifo(limits, active, waiters, "");
    InOrderNoDuplicates(limits, g);
    ListingSize(g);
    forall w ensures Active(joined, w) == Active(after, w) {
      SamePool(limits, active, waiters, w);
    }
    GrantAllCounts(limits, active, g, "");
    JoinedTotal(active, Elems(g));
    assert Shortfalls(limits, joined) == Shortfalls(limits, after);
  }

  /** The granted set itself respects the ceilings and the reservations, so the optimum is attained. */
  lemma GrantsAreFeasible(limits: Limits, active: map<string, nat>, waiters: set<Waiter>)
    requires DistinctTickets(waiters) && Load(limits, active) <= limits.maxConcurrent
    ensures Feasible(limits, active, Elems(Grants(limits, active, waiters)))
  {
    var g := Grants(limits, active, waiters);
    SweepKeepsLoad(limits, active, Ranked(limits, Known(limits, waiters)));
    GrantsAreFairAndFifo(limits, active, waiters, "");
    SameLoad(limits, active, waiters);
    forall x | x in Elems(g)
      ensures x.workload in limits.workloads
      ensures Active(active, x.workload) + Count(Elems(g), x.workload) <= limits.workloads[x.workload].maxConcurrent
    {
      SamePool(limits, active, waiters, x.workload);
      SweepKeepsCeiling(limits, active, Ranked(limits, Known(limits, waiters)), x.workload);
      OfAll(g, x.workload, x);
    }
  }

  // ----- only the first waiters of each workload matter -----

  /** The waiters ahead of `x` in the queue of its workload. */
  ghost function Ahead(waiters: set<Waiter>, x: Waiter): set<Waiter> {
    set y | y in waiters && y.workload == x.workload && y.ticket < x.ticket
  }

  /** `row_number() OVER (PARTITION BY workload ORDER BY seq) <= limit`. */
  ghost function FirstPerWorkload(waiters: set<Waiter>, limit: int): set<Waiter> {
    set x | x in waiters && |Ahead(waiters, x)| < limit
  }

  ghost function Keep(s: seq<Waiter>, kept: set<Waiter>): (r: seq<Waiter>)
    ensures forall x :: x in r ==> x in s
  {
    if s == [] then [] else (if s[0] in kept then [s[0]] else []) + Keep(s[1..], kept)
  }

  lemma {:induction false} KeepInOrder(limits: Limits, s: seq<Waiter>, kept: set<Waiter>)
    requires InOrder(limits, s)
    ensures InOrder(limits, Keep(s, kept))
    ensures Elems(Keep(s, kept)) == Elems(s) * kept
  {
    if s != [] {
      var rest := Keep(s[1..], kept);
      KeepInOrder(limits, s[1..], kept);
      assert s == [s[0]] + s[1..];
      forall k | 0 <= k < |rest| ensures Before(limits, s[0], rest[k]) {
        assert rest[k] in rest;
        var j :| 0 <= j < |s[1..]| && s[1..][j] == rest[k];
        assert s[j + 1] == rest[k];
      }
      forall x ensures x in Elems(Keep(s, kept)) <==> x in Elems(s) * kept {
        assert x in Elems(rest) <==> x in Elems(s[1..]) * kept;
      }
    }
  }

  /** A dropped waiter is blocked, or enough older waiters of its workload come first to use up the limit. */
  ghost predicate Hopeless(limits: Limits, active: map<string, nat>, s: seq<Waiter>, i: nat)
    requires i < |s|
  {
    || !Admissible(limits, active, s[i].workload)
    || Total(active) + |Of(s[..i], s[i].workload)| >= limits.maxConcurrent
  }

  lemma {:induction false} DroppingTheHopeless(limits: Limits, active: map<string, nat>, s: seq<Waiter>,
                                               kept: set<Waiter>)
    requires forall i :: 0 <= i < |s| && s[i] !in kept ==> Hopeless(limits, active, s, i)
    ensures Sweep(limits, active, s) == Sweep(limits, active, Keep(s, kept))
    decreases s
  {
    if s != [] {
      var grants := Admissible(limits, active, s[0].workload);
      var next := if grants then Grant(active, s[0].workload) else active;
      if s[0] !in kept {
        assert Hopeless(limits, active, s, 0);
        UnmetNonNegative(limits, active, s[0].workload);
        assert !grants;
      }
      forall i | 0 <= i < |s[1..]| && s[1..][i] !in kept ensures Hopeless(limits, next, s[1..], i) {
        var w := s[1..][i].workload;
        assert s[i + 1] == s[1..][i] && Hopeless(limits, active, s, i + 1);
        assert s[..i + 1] == [s[0]] + s[1..][..i];
        OfConcat([s[0]], s[1..][..i], w);
        if grants {
          GrantShortfalls(limits, active, s[0].workload);
          if !Admissible(limits, active, w) {
            StaysBlocked(limits, active, s[0].workload, w);
          }
        }
      }
      DroppingTheHopeless(limits, next, s[1..], kept);
      var fewer := Keep(s[1..], kept);
      if s[0] in kept {
        assert Keep(s, kept) == [s[0]] + fewer;
        assert ([s[0]] + fewer)[1..] == fewer;
        assert Sweep(limits, active, [s[0]] + fewer)
            == (if grants then [s[0]] else []) + Sweep(limits, next, fewer);
      } else {
        assert Keep(s, kept) == fewer;
      }
    }
  }

  lemma AheadCount(limits: Limits, s: seq<Waiter>, i: nat, waiters: set<Waiter>)
    requires InOrder(limits, s) && Elems(s) == Known(limits, waiters) && i < |s|
    ensures |Of(s[..i], s[i].workload)| == |Ahead(waiters, s[i])|
  {
    var w := s[i].workload;
    var queue := Of(s[..i], w);
    OfElems(s[..i], w);
    OfInOrder(limits, s[..i], w);
    ListingSize(queue);
    assert s[i] in Elems(s);
    forall y ensures y in Elems(queue) <==> y in Ahead(waiters, s[i]) {
      if y in Ahead(waiters, s[i]) {
        assert y in Elems(s);
        var j :| 0 <= j < |s| && s[j] == y;
        assert j < i by {
          assert j > i ==> Before(limits, s[i], s[j]);
        }
        assert s[..i][j] == y;
      }
      if y in Elems(queue) {
        var j :| 0 <= j < |s[..i]| && s[..i][j] == y;
        assert s[j] in Elems(s) && Before(limits, s[j], s[i]);
      }
    }
    assert Elems(queue) == Ahead(waiters, s[i]);
  }

  /** Reading only the first `maxConcurrent` waiters of each workload does not change the grants. */
  lemma TruncatedQueueGivesSameGrants(limits: Limits, active: map<string, nat>, waiters: set<Waiter>)
    requires DistinctTickets(waiters)
    ensures Grants(limits, active, FirstPerWorkload(waiters, limits.maxConcurrent)) == Grants(limits, active, waiters)
  {
    var few := FirstPerWorkload(waiters, limits.maxConcurrent);
    var s := Ranked(limits, Known(limits, waiters));
    var kept := Known(limits, few);
    forall i | 0 <= i < |s| && s[i] !in kept ensures Hopeless(limits, active, s, i) {
      assert s[i] in Elems(s);
      AheadCount(limits, s, i, waiters);
      SumNonNegative(active);
    }
    DroppingTheHopeless(limits, active, s, kept);
    KeepInOrder(limits, s, kept);
    assert Elems(s) * kept == kept;
    RankedUnique(limits, Keep(s, kept), Ranked(limits, kept));
  }
}
