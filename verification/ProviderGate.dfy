/**
 The provider gate (pi-provider-gate.ts): the stream that forwards one request's
 events, and the order of admission, provider call, release and terminal event.
 */
module ProviderGate {
  import opened Prelude

  // ----- ForwardingStream -----

  /** `settled` holds the promises of waiting readers that were resolved: an event, or None for the end. */
  datatype Stream<E> = Stream(queue: seq<E>, waiters: seq<nat>, settled: map<nat, Option<E>>, issued: nat, done: bool)

  function EmptyStream<E>(): Stream<E> {
    Stream([], [], map[], 0, false)
  }

  function Pushed<E>(s: Stream<E>, event: E): Stream<E> {
    if s.done then s
    else if s.waiters != [] then s.(waiters := s.waiters[1..], settled := s.settled[s.waiters[0] := Some(event)])
    else s.(queue := s.queue + [event])
  }

  function EndAll<E>(settled: map<nat, Option<E>>, waiters: seq<nat>): map<nat, Option<E>>
    decreases waiters
  {
    if waiters == [] then settled else EndAll(settled[waiters[0] := None], waiters[1..])
  }

  function Finished<E>(s: Stream<E>, event: Option<E>): Stream<E> {
    if s.done then s
    else
      var p := if event.Some? then Pushed(s, event.value) else s;
      p.(done := true, waiters := [], settled := EndAll(p.settled, p.waiters))
  }

  /** One `for await` loop over the stream: what it received so far and the promise it waits for. */
  datatype Consumer<E> = Consumer(pending: Option<nat>, received: seq<E>, ended: bool)

  /** The iterator runs until its next suspension. */
  function Resumed<E>(s: Stream<E>, c: Consumer<E>): (Stream<E>, Consumer<E>) {
    if c.ended then (s, c)
    else if c.pending.Some? then
      if c.pending.value !in s.settled then (s, c)
      else if s.settled[c.pending.value].None? then (s, c.(pending := None, ended := true))
      else (s, c.(pending := None, received := c.received + [s.settled[c.pending.value].value]))
    else if s.queue != [] then (s.(queue := s.queue[1..]), c.(received := c.received + [s.queue[0]]))
    else if s.done then (s, c.(ended := true))
    else (s.(waiters := s.waiters + [s.issued], issued := s.issued + 1), c.(pending := Some(s.issued)))
  }

  /** The event on its way to the waiting consumer. */
  function InTransit<E>(s: Stream<E>, c: Consumer<E>): seq<E> {
    if c.pending.Some? && c.pending.value in s.settled && s.settled[c.pending.value].Some?
    then [s.settled[c.pending.value].value] else []
  }

  /** With one consumer: what was accepted is what it received, what is on its way and what is queued, in this order. */
  ghost predicate Faithful<E>(s: Stream<E>, c: Consumer<E>, accepted: seq<E>) {
    && accepted == c.received + InTransit(s, c) + s.queue
    && (s.waiters != [] ==>
          s.queue == [] && !s.done && c.pending == Some(s.waiters[0]) && |s.waiters| == 1
          && s.waiters[0] !in s.settled)
    && (c.pending.Some? ==> c.pending.value < s.issued && (s.waiters != [] || c.pending.value in s.settled))
    && (forall p :: p in s.settled ==> p < s.issued)
    && (c.pending.Some? && c.pending.value in s.settled && s.settled[c.pending.value].None? ==> s.done && s.queue == [])
    && (c.ended ==> s.done && s.queue == [] && c.pending.None?)
  }

  lemma PushKeepsFaithful<E>(s: Stream<E>, c: Consumer<E>, accepted: seq<E>, event: E)
    requires Faithful(s, c, accepted)
    ensures Faithful(Pushed(s, event), c, if s.done then accepted else accepted + [event])
  {
    if !s.done && s.waiters != [] {
      assert s.queue == [] && InTransit(s, c) == [];
      assert accepted + [event] == c.received + [event] + [];
    } else if !s.done {
      assert c.received + InTransit(s, c) + (s.queue + [event]) == accepted + [event];
    }
  }

  lemma FinishKeepsFaithful<E>(s: Stream<E>, c: Consumer<E>, accepted: seq<E>, event: Option<E>)
    requires Faithful(s, c, accepted)
    ensures Faithful(Finished(s, event), c, if s.done || event.None? then accepted else accepted + [event.value])
    ensures Finished(s, event).done
  {
    if !s.done {
      if event.Some? {
        PushKeepsFaithful(s, c, accepted, event.value);
      }
      var p := if event.Some? then Pushed(s, event.value) else s;
      if p.waiters != [] {
        assert p.waiters[1..] == [];
        assert EndAll(p.settled, p.waiters) == p.settled[p.waiters[0] := None];
      }
    }
  }

  lemma ResumeKeepsFaithful<E>(s: Stream<E>, c: Consumer<E>, accepted: seq<E>)
    requires Faithful(s, c, accepted)
    ensures Faithful(Resumed(s, c).0, Resumed(s, c).1, accepted)
  {
    if !c.ended && c.pending.None? && s.queue != [] {
      assert s.queue == [s.queue[0]] + s.queue[1..];
      assert c.received + [s.queue[0]] + [] + s.queue[1..] == c.received + [] + s.queue;
    }
  }

  datatype Use<E> = Push(event: E) | Finish(last: Option<E>) | Read

  /** What pushes and the first finish add, in order. */
  function Accepts<E>(s: Stream<E>, use: Use<E>): seq<E> {
    match use
    case Push(event) => if s.done then [] else [event]
    case Finish(last) => if s.done || last.None? then [] else [last.value]
    case Read => []
  }

  function AfterUse<E>(s: Stream<E>, c: Consumer<E>, use: Use<E>): (Stream<E>, Consumer<E>) {
    match use
    case Push(event) => (Pushed(s, event), c)
    case Finish(last) => (Finished(s, last), c)
    case Read => Resumed(s, c)
  }

  lemma UseKeepsFaithful<E>(s: Stream<E>, c: Consumer<E>, accepted: seq<E>, use: Use<E>)
    requires Faithful(s, c, accepted)
    ensures Faithful(AfterUse(s, c, use).0, AfterUse(s, c, use).1, accepted + Accepts(s, use))
  {
    match use
    case Push(event) => PushKeepsFaithful(s, c, accepted, event);
    case Finish(last) => FinishKeepsFaithful(s, c, accepted, last);
    case Read => ResumeKeepsFaithful(s, c, accepted);
    assert accepted + [] == accepted;
  }

  /** The events pushed before the first finish, and the event of that finish: what the stream is meant to carry. */
  function Meant<E>(uses: seq<Use<E>>): seq<E>
    decreases uses
  {
    if uses == [] then []
    else match uses[0]
      case Push(event) => [event] + Meant(uses[1..])
      case Finish(last) => if last.Some? then [last.value] else []
      case Read => Meant(uses[1..])
  }

  predicate HasFinish<E>(uses: seq<Use<E>>) {
    exists i :: 0 <= i < |uses| && uses[i].Finish?
  }

  function RunUses<E>(s: Stream<E>, c: Consumer<E>, uses: seq<Use<E>>): (Stream<E>, Consumer<E>)
    decreases uses
  {
    if uses == [] then (s, c)
    else
      var n := AfterUse(s, c, uses[0]);
      RunUses(n.0, n.1, uses[1..])
  }

  lemma HasFinishStep<E>(uses: seq<Use<E>>)
    requires uses != []
    ensures HasFinish(uses) <==> uses[0].Finish? || HasFinish(uses[1..])
  {
    if HasFinish(uses[1..]) {
      var i :| 0 <= i < |uses[1..]| && uses[1..][i].Finish?;
      assert uses[i + 1].Finish?;
    }
    if HasFinish(uses) && !uses[0].Finish? {
      var i :| 0 <= i < |uses| && uses[i].Finish?;
      assert uses[1..][i - 1].Finish?;
    }
  }

  function Rest<E>(done: bool, uses: seq<Use<E>>): seq<E> {
    if done then [] else Meant(uses)
  }

  lemma MeantStep<E>(s: Stream<E>, c: Consumer<E>, accepted: seq<E>, uses: seq<Use<E>>)
    requires uses != []
    ensures (accepted + Accepts(s, uses[0])) + Rest(AfterUse(s, c, uses[0]).0.done, uses[1..]) ==
            accepted + Rest(s.done, uses)
    ensures AfterUse(s, c, uses[0]).0.done <==> s.done || uses[0].Finish?
  {
  }

  lemma {:induction false} RunIsFaithful<E>(s: Stream<E>, c: Consumer<E>, accepted: seq<E>, uses: seq<Use<E>>)
    requires Faithful(s, c, accepted)
    ensures var end := RunUses(s, c, uses);
            && Faithful(end.0, end.1, accepted + Rest(s.done, uses))
            && (end.0.done <==> s.done || HasFinish(uses))
    decreases uses
  {
    if uses == [] {
      assert accepted + [] == accepted;
    } else {
      var n := AfterUse(s, c, uses[0]);
      UseKeepsFaithful(s, c, accepted, uses[0]);
      RunIsFaithful(n.0, n.1, accepted + Accepts(s, uses[0]), uses[1..]);
      HasFinishStep(uses);
      MeantStep(s, c, accepted, uses);
    }
  }

  /**
   One consumer, any interleaving of pushes, finishes and reads: it receives the pushed
   events in order and nothing after the finish, and once its loop has ended it has
   received them all.
   */
  lemma OneConsumerGetsEverything<E>(uses: seq<Use<E>>)
    ensures var c := RunUses(EmptyStream<E>(), Consumer(None, [], false), uses).1;
            && c.received <= Meant(uses)
            && (c.ended ==> c.received == Meant(uses) && HasFinish(uses))
  {
    RunIsFaithful(EmptyStream<E>(), Consumer(None, [], false), [], uses);
    assert [] + Meant(uses) == Meant(uses);
  }

  class ForwardingStream<E(!new)> {
    var queue: seq<E>
    var waiters: seq<nat>
    var settled: map<nat, Option<E>>
    var issued: nat
    var done: bool

    ghost function View(): Stream<E>
      reads this
    {
      Stream(queue, waiters, settled, issued, done)
    }

    constructor ()
      ensures View() == EmptyStream<E>()
    {
      queue, waiters, settled, issued, done := [], [], map[], 0, false;
    }

    method Push(event: E)
      modifies this
      ensures View() == Pushed(old(View()), event)
    {
      if done {
        return;
      }
      if waiters != [] {
        var waiter := waiters[0];
        waiters := waiters[1..];
        settled := settled[waiter := Some(event)];
      } else {
        queue := queue + [event];
      }
    }

    method Finish(event: Option<E>)
      modifies this
      ensures View() == Finished(old(View()), event)
    {
      if done {
        return;
      }
      if event.Some? {
        Push(event.value);
      }
      done := true;
      while waiters != []
        invariant done
        invariant queue == (if old(done) || event.None? then old(View()) else Pushed(old(View()), event.value)).queue
        invariant issued == old(issued) && !old(done)
        invariant EndAll(settled, waiters) == Finished(old(View()), event).settled
        decreases |waiters|
      {
        settled := settled[waiters[0] := None];
        waiters := waiters[1..];
      }
    }

    /** The iterator's own part: take from the queue, end, or wait for a promise. */
    method Read(c: Consumer<E>) returns (n: Consumer<E>)
      modifies this
      ensures (View(), n) == Resumed(old(View()), c)
    {
      n := c;
      if c.ended {
        return;
      }
      if c.pending.Some? {
        if c.pending.value in settled {
          var result := settled[c.pending.value];
          n := if result.None? then c.(pending := None, ended := true)
               else c.(pending := None, received := c.received + [result.value]);
        }
      } else if queue != [] {
        n := c.(received := c.received + [queue[0]]);
        queue := queue[1..];
      } else if done {
        n := c.(ended := true);
      } else {
        waiters := waiters + [issued];
        n := c.(pending := Some(issued));
        issued := issued + 1;
      }
    }
  }

  // ----- gatedRequest -----

  datatype Event = Content(n: nat) | DoneEvent | ErrorEvent(aborted: bool)

  predicate IsTerminal(e: Event) {
    !e.Content?
  }

  /** Where the request's async function is suspended. */
  datatype Phase =
    | Admitting
    | Draining                        // reading the provider's stream
    | ReturningFor(last: Event)       // awaiting the release before the terminal event
    | ReturningAtEnd                  // the same, the stream ended without one
    | AwaitingResult                  // `source.result()`
    | ReturningFailed                 // awaiting the release in the catch block
    | Over

  datatype ReleaseOutcome = Completed | Failed | Cancelled

  /** How the provider's side of the request ended, with the state of the signal at that moment. */
  datatype Source = Producing | Terminated(last: Event) | RanOut(aborted: bool) | Threw(aborted: bool)

  datatype Gated = Gated(
    phase: Phase,
    admitted: bool,
    innerCalls: nat,
    source: Source,
    callerAborted: bool,               // while the request was in progress
    released: Option<ReleaseOutcome>,  // permit.release was called; the first outcome counts
    settled: bool,                     // ... and its promise has settled
    sent: seq<Event>,                  // content the provider produced
    closed: Option<Option<Event>>,     // the stream was finished, with this last event
    stream: Stream<Event>,
    consumer: Consumer<Event>)

  const FRESH := Gated(Admitting, false, 0, Producing, false, None, false, [], None, EmptyStream<Event>(),
                       Consumer(None, [], false))

  datatype Step =
    | Admitted(throws: bool, aborted: bool)   // the gate grants; the provider call may throw at once
    | Denied(aborted: bool)
    | SourceEvent(event: Event)
    | SourceEnds(aborted: bool)
    | SourceThrows(aborted: bool)
    | CallerAborts
    | ReleaseSettles
    | Continue(aborted: bool, resultOk: bool)   // the awaited promise has settled
    | ConsumerReads

  predicate Enabled(g: Gated, step: Step) {
    match step
    case Admitted(_, _) => g.phase.Admitting?
    case Denied(_) => g.phase.Admitting?
    case SourceEvent(_) => g.phase.Draining?
    case SourceEnds(_) => g.phase.Draining?
    case SourceThrows(_) => g.phase.Draining?
    case CallerAborts => !g.phase.Admitting? && !g.phase.Over?
    case ReleaseSettles => g.released.Some?
    case Continue(_, _) =>
      ((g.phase.ReturningFor? || g.phase.ReturningAtEnd? || g.phase.ReturningFailed?) && g.settled) ||
        g.phase.AwaitingResult?
    case ConsumerReads => true
  }

  function Finishing(g: Gated, event: Option<Event>): Gated {
    g.(phase := Over, closed := Some(event), stream := Finished(g.stream, event))
  }

  /** `permit.release`: only the first call counts. */
  function Releasing(g: Gated, outcome: ReleaseOutcome): Gated {
    if g.released.Some? then g else g.(released := Some(outcome))
  }

  /** The catch block, up to its await. */
  function Catching(g: Gated, aborted: bool): Gated {
    Releasing(g, if aborted then Cancelled else Failed).(source := Threw(aborted), phase := ReturningFailed)
  }

  function OutcomeOf(event: Event): ReleaseOutcome {
    match event
    case ErrorEvent(aborted) => if aborted then Cancelled else Failed
    case _ => Completed
  }

  function Next(g: Gated, step: Step): Gated
    requires Enabled(g, step)
  {
    match step
    case Admitted(throws, aborted) =>
      var called := g.(admitted := true, innerCalls := g.innerCalls + 1);
      if throws then Catching(called, aborted) else called.(phase := Draining)
    case Denied(aborted) => Finishing(g, Some(ErrorEvent(aborted)))
    case SourceEvent(event) =>
      if IsTerminal(event)
      then Releasing(g, OutcomeOf(event)).(source := Terminated(event), phase := ReturningFor(event))
      else g.(sent := g.sent + [event], stream := Pushed(g.stream, event))
    case SourceEnds(aborted) =>
      Releasing(g, if aborted then Cancelled else Completed).(source := RanOut(aborted), phase := ReturningAtEnd)
    case SourceThrows(aborted) => Catching(g, aborted)
    case CallerAborts => Releasing(g, Cancelled).(callerAborted := true)
    case ReleaseSettles => g.(settled := true)
    case Continue(aborted, resultOk) =>
      (match g.phase
       case ReturningFor(last) => Finishing(g, Some(last))
       case ReturningFailed => Finishing(g, Some(ErrorEvent(aborted)))
       case ReturningAtEnd => g.(phase := AwaitingResult)
       case _ => if resultOk then Finishing(g, None) else g.(phase := ReturningFailed))
    case ConsumerReads =>
      var n := Resumed(g.stream, g.consumer);
      g.(stream := n.0, consumer := n.1)
  }

  function Closing(closed: Option<Option<Event>>): seq<Event> {
    if closed.Some? && closed.value.Some? then [closed.value.value] else []
  }

  /** What the stream has carried: the provider's content, then the event it was finished with. */
  ghost predicate Carried(g: Gated, accepted: seq<Event>) {
    Faithful(g.stream, g.consumer, accepted) && accepted == g.sent + Closing(g.closed)
  }

  /** How far the request is, and what has happened by then. */
  predicate InStep(g: Gated) {
    && g.innerCalls == (if g.admitted then 1 else 0)
    && (g.stream.done <==> g.phase.Over?) && (g.closed.Some? <==> g.phase.Over?)
    && (g.settled ==> g.released.Some?)
    && (g.phase.Admitting? ==> !g.admitted) && (!g.admitted ==> g.source.Producing?)
    && (!g.phase.Admitting? && !g.phase.Over? ==> g.admitted)
    && (g.phase.ReturningFor? || g.phase.ReturningFailed? || g.phase.ReturningAtEnd? || g.phase.AwaitingResult? ==>
          g.released.Some?)
    && (g.phase.ReturningFor? ==> g.source == Terminated(g.phase.last) && IsTerminal(g.phase.last))
    && (g.phase.AwaitingResult? || g.phase.ReturningAtEnd? ==> g.source.RanOut?)
    && (g.phase.ReturningFailed? ==> g.source.Threw? || g.source.RanOut?)
    && (g.phase.Admitting? || g.phase.Draining? ==> g.source.Producing?)
    && (g.phase.AwaitingResult? || (g.phase.Over? && g.admitted) ==> g.settled)
    && EndsAsItShould(g) && ReleasedAsItShould(g)
  }

  /** The event the stream is finished with: the provider's own, an error, or none when the provider sent none. */
  predicate EndsAsItShould(g: Gated) {
    g.closed.Some? ==>
      if !g.admitted then g.closed.value.Some? && g.closed.value.value.ErrorEvent?
      else match g.source
        case Producing => false
        case Terminated(last) => g.closed.value == Some(last) && IsTerminal(last)
        case RanOut(_) => g.closed.value.None? || g.closed.value.value.ErrorEvent?
        case Threw(_) => g.closed.value.Some? && g.closed.value.value.ErrorEvent?
  }

  /** The outcome of the release: cancelled when the caller aborted first, else as the provider's side ended. */
  predicate ReleasedAsItShould(g: Gated) {
    match g.released
    case None => !g.callerAborted && g.source.Producing?
    case Some(outcome) =>
      || (g.callerAborted && outcome == Cancelled)
      || match g.source
         case Producing => false
         case Terminated(last) => outcome == OutcomeOf(last)
         case RanOut(aborted) => outcome == if aborted then Cancelled else Completed
         case Threw(aborted) => outcome == if aborted then Cancelled else Failed
  }

  ghost predicate Inv(g: Gated) {
    && InStep(g)
    && (forall i :: 0 <= i < |g.sent| ==> !IsTerminal(g.sent[i]))
    && Carried(g, g.sent + Closing(g.closed))
  }

  lemma StepStaysInStep(g: Gated, step: Step)
    requires InStep(g) && Enabled(g, step)
    ensures InStep(Next(g, step))
  {
  }

  lemma FinishCarries(g: Gated, last: Option<Event>)
    requires Carried(g, g.sent + Closing(g.closed)) && g.closed.None? && !g.stream.done
    ensures Carried(Finishing(g, last), g.sent + Closing(Some(last)))
  {
    assert g.sent + [] == g.sent;
    FinishKeepsFaithful(g.stream, g.consumer, g.sent, last);
  }

  lemma SameCarried(g: Gated, n: Gated)
    requires Carried(g, g.sent + Closing(g.closed))
    requires n.stream == g.stream && n.consumer == g.consumer && n.sent == g.sent && n.closed == g.closed
    ensures Carried(n, n.sent + Closing(n.closed))
  {
  }

  lemma ContentCarries(g: Gated, event: Event)
    requires Carried(g, g.sent + Closing(g.closed)) && g.closed.None? && !g.stream.done
    ensures var n := g.(sent := g.sent + [event], stream := Pushed(g.stream, event));
            Carried(n, n.sent + Closing(n.closed))
  {
    assert g.sent + [] == g.sent && g.sent + [event] + [] == g.sent + [event];
    PushKeepsFaithful(g.stream, g.consumer, g.sent, event);
  }

  lemma StepCarries(g: Gated, step: Step)
    requires InStep(g) && Enabled(g, step) && Carried(g, g.sent + Closing(g.closed))
    ensures Carried(Next(g, step), Next(g, step).sent + Closing(Next(g, step).closed))
  {
    var n := Next(g, step);
    if n.phase.Over? && !g.phase.Over? {
      FinishCarries(g, n.closed.value);
    } else if step.SourceEvent? && !IsTerminal(step.event) {
      ContentCarries(g, step.event);
    } else if step.ConsumerReads? {
      ResumeKeepsFaithful(g.stream, g.consumer, g.sent + Closing(g.closed));
    } else {
      SameCarried(g, n);
    }
  }

  lemma StepKeepsInv(g: Gated, step: Step)
    requires Inv(g) && Enabled(g, step)
    ensures Inv(Next(g, step))
  {
    StepStaysInStep(g, step);
    StepCarries(g, step);
  }

  predicate Run(g: Gated, steps: seq<Step>, end: Gated)
    decreases steps
  {
    if steps == [] then end == g else Enabled(g, steps[0]) && Run(Next(g, steps[0]), steps[1..], end)
  }

  lemma {:induction false} RunKeepsInv(g: Gated, steps: seq<Step>, end: Gated)
    requires Inv(g) && Run(g, steps, end)
    ensures Inv(end)
    decreases steps
  {
    if steps != [] {
      StepKeepsInv(g, steps[0]);
      RunKeepsInv(Next(g, steps[0]), steps[1..], end);
    }
  }

  lemma FreshIsSound()
    ensures Inv(FRESH)
  {
    assert Carried(FRESH, []);
  }

  /**
   In every run of one gated request: the provider is called at most once and only after
   the gate admitted the request; and the consumer sees the terminal event, or the end
   of the stream, of an admitted request only after the release of its permit settled.
   */
  lemma TerminalOnlyAfterRelease(steps: seq<Step>, end: Gated)
    requires Run(FRESH, steps, end)
    ensures end.innerCalls <= 1 && (end.innerCalls == 1 ==> end.admitted)
    ensures end.admitted && (end.consumer.ended || exists e :: e in end.consumer.received && IsTerminal(e)) ==>
            end.settled
  {
    FreshIsSound();
    RunKeepsInv(FRESH, steps, end);
    var accepted := end.sent + Closing(end.closed);
    if e :| e in end.consumer.received && IsTerminal(e) {
      var k :| 0 <= k < |end.consumer.received| && end.consumer.received[k] == e;
      assert accepted[k] == e;
    }
  }

  /**
   The consumer receives the provider's content in order, and at the end the provider's own
   terminal event if it sent one; an error stands for a denial or a failure, and nothing
   for a stream that just ended.
   */
  lemma ConsumerSeesTheProvider(steps: seq<Step>, end: Gated)
    requires Run(FRESH, steps, end)
    ensures end.consumer.received <= end.sent + Closing(end.closed)
    ensures end.consumer.ended ==>
              && end.consumer.received == end.sent + Closing(end.closed)
              && (end.source.Terminated? ==> end.consumer.received == end.sent + [end.source.last])
              && (end.source.Threw? || !end.admitted ==>
                    end.consumer.received != [] && end.consumer.received[..|end.consumer.received| - 1] == end.sent
                    && end.consumer.received[|end.consumer.received| - 1].ErrorEvent?)
              && (end.source.RanOut? ==>
                    end.consumer.received == end.sent
                    || exists aborted :: end.consumer.received == end.sent + [ErrorEvent(aborted)])
  {
    FreshIsSound();
    RunKeepsInv(FRESH, steps, end);
    if end.consumer.ended && end.source.RanOut? && end.closed.value.Some? {
      assert end.consumer.received == end.sent + [ErrorEvent(end.closed.value.value.aborted)];
    }
  }

  /** The slot is given back once, as cancelled if the caller aborted first, and else as the provider's side ended. */
  lemma SlotIsReturnedForTheReason(steps: seq<Step>, end: Gated)
    requires Run(FRESH, steps, end) && end.phase.Over? && end.admitted
    ensures match end.source
            case Producing => false
            case Terminated(last) =>
              || end.released == Some(match last
                                      case ErrorEvent(aborted) => if aborted then Cancelled else Failed
                                      case _ => Completed)
              || (end.callerAborted && end.released == Some(Cancelled))
            case RanOut(aborted) =>
              end.released == Some(if aborted then Cancelled else Completed) ||
                (end.callerAborted && end.released == Some(Cancelled))
            case Threw(aborted) =>
              end.released == Some(if aborted then Cancelled else Failed) ||
                (end.callerAborted && end.released == Some(Cancelled))
  {
    FreshIsSound();
    RunKeepsInv(FRESH, steps, end);
  }

  /** An abort of the caller gives the slot back at once, and the first release is the one that counts. */
  lemma {:induction false} FirstReleaseCounts(g: Gated, steps: seq<Step>, end: Gated)
    requires Run(g, steps, end)
    ensures g.released.Some? ==> end.released == g.released
    ensures g.released.None? && Enabled(g, CallerAborts) ==> Next(g, CallerAborts).released == Some(Cancelled)
    decreases steps
  {
    if steps != [] {
      FirstReleaseCounts(Next(g, steps[0]), steps[1..], end);
    }
  }

  /** The error that ends the stream says whether the request was aborted, as the signal stands then. */
  lemma ErrorsSayWhetherAborted(g: Gated, step: Step)
    requires Enabled(g, step)
    ensures step.Denied? ==> Next(g, step).closed == Some(Some(ErrorEvent(step.aborted)))
    ensures step.Continue? && g.phase.ReturningFailed? ==> Next(g, step).closed == Some(Some(ErrorEvent(step.aborted)))
  {
  }
}
