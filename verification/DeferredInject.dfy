/**
 Deferred inject on an adapter without a quiet channel: silent events wait in a
 bounded buffer for a turn that happens anyway.
 */
module DeferredInject {
  import opened Prelude

  const MAX_DEFERRED: nat := 64

  /** `stamp` is the event's position in the order of arrival. */
  datatype Event = Event(stamp: nat, wake: bool, content: string)

  // ── one thread at a time ───────────────────────────────────────────────────

  class Channel {
    var deferred: seq<Event>
    ghost var received: seq<Event>
    ghost var emitted: seq<Event>

    /** Emission is a delay: what went out, then what waits, is what came in. */
    ghost predicate Valid()
      reads this
    {
      |deferred| < MAX_DEFERRED && emitted + deferred == received && forall e :: e in deferred ==> !e.wake
    }

    constructor ()
      ensures Valid() && received == [] && emitted == []
    {
      deferred, received, emitted := [], [], [];
    }

    method Send(e: Event)
      modifies this`emitted
      ensures emitted == old(emitted) + [e]
    {
      emitted := emitted + [e];
    }

    method EmitDeferred(batch: seq<Event>)
      modifies this`emitted
      ensures emitted == old(emitted) + batch
    {
      for i := 0 to |batch|
        invariant emitted == old(emitted) + batch[..i]
      {
        Send(batch[i]);
      }
      assert batch[..|batch|] == batch;
    }

    method DeferSilentEvent(e: Event)
      requires Valid() && !e.wake
      modifies this
      ensures Valid() && received == old(received) + [e]
      ensures if |old(deferred)| + 1 < MAX_DEFERRED then emitted == old(emitted) && deferred == old(deferred) + [e]
              else emitted == received && deferred == []
    {
      received := received + [e];
      deferred := deferred + [e];
      var overflow := [];
      if |deferred| >= MAX_DEFERRED {
        overflow := deferred;
        deferred := [];
      }
      if overflow != [] {
        EmitDeferred(overflow);
      }
    }

    method FlushSilentEvents() returns (count: nat)
      requires Valid()
      modifies this
      ensures Valid() && received == old(received) && emitted == received && deferred == []
      ensures count == |old(deferred)|
    {
      var batch := deferred;
      deferred := [];
      if batch == [] {
        return 0;
      }
      EmitDeferred(batch);
      count := |batch|;
    }

    /** A wake goes out after every silent event that came before it. */
    method EmitWakeEvent(e: Event)
      requires Valid()
      modifies this
      ensures Valid() && received == old(received) + [e]
      ensures e.wake ==> emitted == received
    {
      if !e.wake {
        DeferSilentEvent(e);
        return;
      }
      var flushed := FlushSilentEvents();
      received := received + [e];
      Send(e);
    }
  }

  // ── client and tool-call threads interleaved ───────────────────────────────

  /** A thread outside the lock is idle or working through a batch it took, then its own wake. */
  datatype Thread = Idle | Emitting(batch: seq<Event>, andThen: Option<Event>)

  datatype State = State(buffer: seq<Event>, threads: seq<Thread>, received: seq<Event>, emitted: seq<Event>)

  datatype Label =
    | ReceiveSilent(t: nat, content: string)
    | ReceiveWake(t: nat, content: string)
    | Flush(t: nat)
    | EmitNext(t: nat)

  predicate Enabled(s: State, l: Label) {
    && l.t < |s.threads|
    && (if l.EmitNext? then s.threads[l.t].Emitting? else s.threads[l.t].Idle?)
  }

  function Next(s: State, l: Label): State
    requires Enabled(s, l)
  {
    match l
    case ReceiveSilent(t, content) =>
      var e := Event(|s.received|, false, content);
      var buffer := s.buffer + [e];
      if |buffer| >= MAX_DEFERRED
      then State([], s.threads[t := Emitting(buffer, None)], s.received + [e], s.emitted)
      else s.(buffer := buffer, received := s.received + [e])
    case ReceiveWake(t, content) =>
      var e := Event(|s.received|, true, content);
      State([], s.threads[t := Emitting(s.buffer, Some(e))], s.received + [e], s.emitted)
    case Flush(t) =>
      s.(buffer := [], threads := s.threads[t := Emitting(s.buffer, None)])
    case EmitNext(t) =>
      var Emitting(batch, andThen) := s.threads[t];
      if batch != [] then
        s.(threads := s.threads[t := Emitting(batch[1..], andThen)], emitted := s.emitted + [batch[0]])
      else if andThen.Some? then
        s.(threads := s.threads[t := Idle], emitted := s.emitted + [andThen.value])
      else s.(threads := s.threads[t := Idle])
  }

  function Holding(th: Thread): seq<Event> {
    match th
    case Idle => []
    case Emitting(batch, andThen) => batch + if andThen.Some? then [andThen.value] else []
  }

  function Copies(s: seq<Event>, e: Event): nat {
    multiset(s)[e]
  }

  function Total(share: Thread -> nat, threads: seq<Thread>): nat {
    if threads == [] then 0 else Total(share, threads[..|threads| - 1]) + share(threads[|threads| - 1])
  }

  lemma TotalAppend(share: Thread -> nat, threads: seq<Thread>, th: Thread)
    ensures Total(share, threads + [th]) == Total(share, threads) + share(th)
  {
    assert (threads + [th])[..|threads|] == threads;
  }

  /** Changing one thread changes the total by exactly that thread's share. */
  lemma {:induction false} TotalUpdate(share: Thread -> nat, threads: seq<Thread>, t: nat, th: Thread)
    requires t < |threads|
    ensures Total(share, threads[t := th]) + share(threads[t]) == Total(share, threads) + share(th)
  {
    var n := |threads| - 1;
    var front, last := threads[..n], threads[n];
    assert threads == front + [last];
    TotalAppend(share, front, last);
    if t < n {
      TotalUpdate(share, front, t, th);
      assert threads[t := th] == front[t := th] + [last];
      TotalAppend(share, front[t := th], last);
    } else {
      assert threads[t := th] == front + [th];
      TotalAppend(share, front, th);
    }
  }

  function ShareOf(e: Event): Thread -> nat {
    (th: Thread) => Copies(Holding(th), e)
  }

  /** How many copies of an event threads have taken and not yet sent. */
  function Held(threads: seq<Thread>, e: Event): nat {
    Total(ShareOf(e), threads)
  }

  lemma HeldUpdate(threads: seq<Thread>, t: nat, th: Thread, e: Event)
    requires t < |threads|
    ensures Held(threads[t := th], e) + Copies(Holding(threads[t]), e) == Held(threads, e) + Copies(Holding(th), e)
  {
    TotalUpdate(ShareOf(e), threads, t, th);
  }

  /** As multisets: received is emitted, buffered and held, and nothing else. */
  ghost predicate Conserved(s: State) {
    forall e :: Copies(s.received, e) == Copies(s.emitted, e) + Copies(s.buffer, e) + Held(s.threads, e)
  }

  /** Arrival stamps count up, and a wake being sent came after the batch before it and before all that is buffered. */
  ghost predicate Stamped(s: State) {
    && (forall i :: 0 <= i < |s.received| ==> s.received[i].stamp == i)
    && (forall t, e :: 0 <= t < |s.threads| && s.threads[t].Emitting? && s.threads[t].andThen.Some? && e in s.buffer ==>
          s.threads[t].andThen.value.stamp < e.stamp)
    && (forall t :: 0 <= t < |s.threads| && s.threads[t].Emitting? && s.threads[t].andThen.Some? ==>
          s.threads[t].andThen.value.stamp < |s.received|)
  }

  ghost predicate Inv(s: State) {
    Conserved(s) && Stamped(s) && |s.buffer| < MAX_DEFERRED
  }

  /** What one thread's step moves around adds up. */
  ghost predicate Balanced(s: State, s': State, t: nat, e: Event)
    requires t < |s.threads| == |s'.threads|
  {
    Copies(s'.received, e) + Copies(s.emitted, e) + Copies(s.buffer, e) + Copies(Holding(s.threads[t]), e)
      == Copies(s.received, e) + Copies(s'.emitted, e) + Copies(s'.buffer, e) + Copies(Holding(s'.threads[t]), e)
  }

  lemma CopiesAppend(a: seq<Event>, b: seq<Event>, e: Event)
    ensures Copies(a + b, e) == Copies(a, e) + Copies(b, e)
  {
  }

  lemma ReceiveBalanced(s: State, l: Label, e: Event)
    requires Enabled(s, l) && (l.ReceiveSilent? || l.ReceiveWake?)
    ensures Balanced(s, Next(s, l), l.t, e)
  {
    var x := Event(|s.received|, l.ReceiveWake?, l.content);
    CopiesAppend(s.received, [x], e);
    CopiesAppend(s.buffer, [x], e);
  }

  lemma FlushBalanced(s: State, t: nat, e: Event)
    requires Enabled(s, Flush(t))
    ensures Balanced(s, Next(s, Flush(t)), t, e)
  {
    CopiesAppend(s.buffer, [], e);
  }

  lemma EmitBalanced(s: State, t: nat, e: Event)
    requires Enabled(s, EmitNext(t))
    ensures Balanced(s, Next(s, EmitNext(t)), t, e)
  {
    var Emitting(batch, andThen) := s.threads[t];
    var own := if andThen.Some? then [andThen.value] else [];
    CopiesAppend(batch, own, e);
    if batch != [] {
      assert batch == [batch[0]] + batch[1..];
      CopiesAppend([batch[0]], batch[1..], e);
      CopiesAppend(batch[1..], own, e);
      CopiesAppend(s.emitted, [batch[0]], e);
    } else {
      CopiesAppend(s.emitted, own, e);
      assert s.emitted + [] == s.emitted;
    }
  }

  lemma StepConserves(s: State, l: Label)
    requires Conserved(s) && Enabled(s, l)
    ensures Conserved(Next(s, l))
  {
    var s' := Next(s, l);
    assert s'.threads == s.threads[l.t := s'.threads[l.t]];
    forall e ensures Copies(s'.received, e) == Copies(s'.emitted, e) + Copies(s'.buffer, e) + Held(s'.threads, e) {
      if l.ReceiveSilent? || l.ReceiveWake? { ReceiveBalanced(s, l, e); }
      else if l.Flush? { FlushBalanced(s, l.t, e); }
      else { EmitBalanced(s, l.t, e); }
      HeldUpdate(s.threads, l.t, s'.threads[l.t], e);
    }
  }

  lemma ReceiveStamped(s: State, l: Label)
    requires Stamped(s) && |s.buffer| < MAX_DEFERRED && Enabled(s, l) && (l.ReceiveSilent? || l.ReceiveWake?)
    ensures Stamped(Next(s, l)) && |Next(s, l).buffer| < MAX_DEFERRED
  {
  }

  lemma EmitStamped(s: State, l: Label)
    requires Stamped(s) && |s.buffer| < MAX_DEFERRED && Enabled(s, l) && (l.Flush? || l.EmitNext?)
    ensures Stamped(Next(s, l)) && |Next(s, l).buffer| < MAX_DEFERRED
  {
  }

  lemma StepStamped(s: State, l: Label)
    requires Stamped(s) && |s.buffer| < MAX_DEFERRED && Enabled(s, l)
    ensures Stamped(Next(s, l)) && |Next(s, l).buffer| < MAX_DEFERRED
  {
    if l.ReceiveSilent? || l.ReceiveWake? { ReceiveStamped(s, l); } else { EmitStamped(s, l); }
  }

  lemma Step(s: State, l: Label)
    requires Inv(s) && Enabled(s, l)
    ensures Inv(Next(s, l))
  {
    StepConserves(s, l);
    StepStamped(s, l);
  }

  function Start(threads: nat): State {
    State([], seq(threads, i => Idle), [], [])
  }

  ghost predicate IsRun(s: State, run: seq<Label>)
    decreases |run|, 0
  {
    run == [] || (IsRun(s, run[..|run| - 1]) && Enabled(Final(s, run[..|run| - 1]), run[|run| - 1]))
  }

  ghost function Final(s: State, run: seq<Label>): State
    requires IsRun(s, run)
    decreases |run|, 1
  {
    if run == [] then s else Next(Final(s, run[..|run| - 1]), run[|run| - 1])
  }

  lemma {:induction false} NothingHeldAtStart(n: nat, e: Event)
    ensures Held(seq(n, i => Idle), e) == 0
  {
    if n > 0 {
      NothingHeldAtStart(n - 1, e);
      assert seq(n, i => Idle)[..n - 1] == seq(n - 1, i => Idle);
    }
  }

  /**
   Over every interleaving, each event received is exactly once emitted, buffered
   or in some thread's hands, and the buffer is below its ceiling whenever the
   lock is free.
   */
  lemma {:induction false} NothingDropped(threads: nat, run: seq<Label>)
    requires IsRun(Start(threads), run)
    ensures Inv(Final(Start(threads), run))
  {
    if run == [] {
      forall e ensures Held(Start(threads).threads, e) == 0 { NothingHeldAtStart(threads, e); }
    } else {
      NothingDropped(threads, run[..|run| - 1]);
      Step(Final(Start(threads), run[..|run| - 1]), run[|run| - 1]);
    }
  }

  ghost predicate HeldBy(threads: seq<Thread>, u: int, e: Event) {
    0 <= u < |threads| && e in Holding(threads[u])
  }

  lemma {:induction false} HolderExists(threads: seq<Thread>, e: Event) returns (u: nat)
    requires Held(threads, e) > 0
    ensures HeldBy(threads, u, e)
  {
    var n := |threads| - 1;
    if Copies(Holding(threads[n]), e) > 0 {
      u := n;
    } else {
      u := HolderExists(threads[..n], e);
    }
  }

  lemma {:induction false} ShareCounts(share: Thread -> nat, threads: seq<Thread>, u: nat)
    requires u < |threads| && share(threads[u]) > 0
    ensures Total(share, threads) > 0
  {
    var n := |threads| - 1;
    if u < n { ShareCounts(share, threads[..n], u); }
  }

  lemma HolderCounts(threads: seq<Thread>, u: nat, e: Event)
    requires HeldBy(threads, u, e)
    ensures Held(threads, e) > 0
  {
    ShareCounts(ShareOf(e), threads, u);
  }

  lemma HeldBySomeone(threads: seq<Thread>, e: Event)
    ensures Held(threads, e) > 0 <==> exists u :: HeldBy(threads, u, e)
  {
    if Held(threads, e) > 0 {
      var u := HolderExists(threads, e);
    }
    if u :| HeldBy(threads, u, e) {
      HolderCounts(threads, u, e);
    }
  }

  lemma ReceivedOnce(s: State, e: Event)
    requires Stamped(s) && e in s.received
    ensures Copies(s.received, e) == 1
  {
    var i :| 0 <= i < |s.received| && s.received[i] == e;
    assert s.received == s.received[..i] + [e] + s.received[i + 1..];
    assert e !in s.received[..i] && e !in s.received[i + 1..];
  }

  /** At the moment a wake is sent, all that arrived before it has gone out iff no other thread holds any of it. */
  lemma SentInOrderIff(s: State, t: nat)
    requires Inv(s) && t < |s.threads| && s.threads[t].Emitting? && s.threads[t].batch == [] && s.threads[t].andThen.Some?
    ensures var w := s.threads[t].andThen.value;
      (forall e :: e in s.received && e.stamp < w.stamp ==> e in s.emitted)
        <==> (forall u, e :: HeldBy(s.threads, u, e) && u != t ==> w.stamp <= e.stamp)
  {
    var w := s.threads[t].andThen.value;
    forall e ensures e in s.received <==> e in s.emitted || e in s.buffer || exists u :: HeldBy(s.threads, u, e) {
      HeldBySomeone(s.threads, e);
      assert Copies(s.received, e) > 0 <==> Copies(s.emitted, e) > 0 || Copies(s.buffer, e) > 0 || Held(s.threads, e) > 0;
    }
    forall u, e | HeldBy(s.threads, u, e) && u != t && e.stamp < w.stamp
      ensures e in s.received && e !in s.emitted
    {
      HeldBySomeone(s.threads, e);
      ReceivedOnce(s, e);
      assert Copies(s.received, e) == Copies(s.emitted, e) + Copies(s.buffer, e) + Held(s.threads, e);
    }
  }

  // ── what a caller can tell when the wake arrives ───────────────────────────

  ghost predicate HandsEmpty(s: State) {
    forall u :: 0 <= u < |s.threads| ==> Holding(s.threads[u]) == []
  }

  /** Thread `t` has sent its batch and is about to send the wake `w`. */
  predicate AboutToSend(s: State, t: nat, w: Event) {
    t < |s.threads| && s.threads[t] == Emitting([], Some(w))
  }

  ghost predicate EarlierSent(s: State, w: Event) {
    forall e :: e in s.received && e.stamp < w.stamp ==> e in s.emitted
  }

  /** Whatever is scheduled from here on, `w` is sent after everything that arrived before it. */
  ghost predicate AlwaysInOrder(s: State, t: nat, w: Event) {
    forall run :: IsRun(s, run) && AboutToSend(Final(s, run), t, w) ==> EarlierSent(Final(s, run), w)
  }

  function WakeOf(s: State, content: string): Event {
    Event(|s.received|, true, content)
  }

  /** Everything buffered, or held by a thread other than `t`, arrived after `w`. */
  ghost predicate OthersLater(s: State, t: nat, w: Event) {
    && w.stamp < |s.received|
    && (forall e :: e in s.buffer ==> w.stamp < e.stamp)
    && (forall u, e :: HeldBy(s.threads, u, e) && u != t ==> w.stamp < e.stamp)
  }

  lemma OthersStayLater(s: State, l: Label, t: nat, w: Event)
    requires OthersLater(s, t, w) && Enabled(s, l)
    ensures OthersLater(Next(s, l), t, w)
  {
    var s' := Next(s, l);
    forall u, e | HeldBy(s'.threads, u, e) && u != t ensures w.stamp < e.stamp {
      if u != l.t {
        assert HeldBy(s.threads, u, e);
      } else if l.EmitNext? {
        assert HeldBy(s.threads, u, e);
      } else {
        assert e in s.buffer || e.stamp == |s.received|;
      }
    }
  }

  lemma {:induction false} LaterThroughout(s: State, run: seq<Label>, t: nat, w: Event)
    requires Inv(s) && OthersLater(s, t, w) && IsRun(s, run)
    ensures Inv(Final(s, run)) && OthersLater(Final(s, run), t, w)
  {
    if run != [] {
      var front := run[..|run| - 1];
      LaterThroughout(s, front, t, w);
      Step(Final(s, front), run[|run| - 1]);
      OthersStayLater(Final(s, front), run[|run| - 1], t, w);
    }
  }

  lemma InOrderFromEmptyHands(s: State, t: nat, content: string)
    requires Inv(s) && Enabled(s, ReceiveWake(t, content)) && HandsEmpty(s)
    ensures AlwaysInOrder(Next(s, ReceiveWake(t, content)), t, WakeOf(s, content))
  {
    var s1, w := Next(s, ReceiveWake(t, content)), WakeOf(s, content);
    Step(s, ReceiveWake(t, content));
    assert forall u :: 0 <= u < |s1.threads| && u != t ==> Holding(s1.threads[u]) == Holding(s.threads[u]) == [];
    assert OthersLater(s1, t, w);
    forall run | IsRun(s1, run) && AboutToSend(Final(s1, run), t, w) ensures EarlierSent(Final(s1, run), w) {
      LaterThroughout(s1, run, t, w);
      SentInOrderIff(Final(s1, run), t);
    }
  }

  /** `n` sends of thread `t`, nobody else scheduled. */
  function Alone(t: nat, n: nat): seq<Label> {
    if n == 0 then [] else Alone(t, n - 1) + [EmitNext(t)]
  }

  lemma {:induction false} AloneSends(s: State, t: nat, n: nat)
    requires Inv(s) && t < |s.threads| && s.threads[t].Emitting? && n <= |s.threads[t].batch|
    ensures IsRun(s, Alone(t, n)) && Inv(Final(s, Alone(t, n)))
    ensures Final(s, Alone(t, n)).received == s.received
    ensures Final(s, Alone(t, n)).threads == s.threads[t := Emitting(s.threads[t].batch[n..], s.threads[t].andThen)]
  {
    if n > 0 {
      AloneSends(s, t, n - 1);
      var run := Alone(t, n);
      assert run[..|run| - 1] == Alone(t, n - 1);
      var before := Final(s, Alone(t, n - 1));
      assert before.threads[t].batch[1..] == s.threads[t].batch[n..];
      Step(before, EmitNext(t));
    }
  }

  lemma HeldArrived(s: State, u: nat, e: Event)
    requires Inv(s) && HeldBy(s.threads, u, e)
    ensures e in s.received && e.stamp < |s.received|
  {
    HeldBySomeone(s.threads, e);
    assert Copies(s.received, e) > 0;
  }

  lemma OvertakesNow(s: State, t: nat, w: Event, u: nat, e: Event)
    requires Inv(s) && AboutToSend(s, t, w) && HeldBy(s.threads, u, e) && u != t && e.stamp < w.stamp
    ensures !EarlierSent(s, w)
  {
    SentInOrderIff(s, t);
  }

  lemma OvertakesFullHands(s: State, t: nat, content: string)
    requires Inv(s) && Enabled(s, ReceiveWake(t, content)) && !HandsEmpty(s)
    ensures !AlwaysInOrder(Next(s, ReceiveWake(t, content)), t, WakeOf(s, content))
  {
    var s1, w := Next(s, ReceiveWake(t, content)), WakeOf(s, content);
    Step(s, ReceiveWake(t, content));
    var u :| 0 <= u < |s.threads| && Holding(s.threads[u]) != [];
    var e := Holding(s.threads[u])[0];
    HeldArrived(s, u, e);
    var run := Alone(t, |s.buffer|);
    AloneSends(s1, t, |s.buffer|);
    OvertakesNow(Final(s1, run), t, w, u, e);
  }

  /**
   The promise that a wake follows the silent events before it, decided at the
   call: in every reachable state, whatever is scheduled afterwards, a wake taken
   up by an idle thread is sent after everything that arrived before it if and
   only if no thread had anything in its hands when the wake arrived.
   */
  lemma WakeFollowsIff(threads: nat, before: seq<Label>, t: nat, content: string)
    requires IsRun(Start(threads), before) && Enabled(Final(Start(threads), before), ReceiveWake(t, content))
    ensures var s := Final(Start(threads), before);
      AlwaysInOrder(Next(s, ReceiveWake(t, content)), t, WakeOf(s, content)) <==> HandsEmpty(s)
  {
    var s := Final(Start(threads), before);
    NothingDropped(threads, before);
    if HandsEmpty(s) { InOrderFromEmptyHands(s, t, content); } else { OvertakesFullHands(s, t, content); }
  }

  /** A run of two threads in which the wake goes out and the silent event before it has not. */
  lemma WakeOvertakes()
    ensures var run := [ReceiveSilent(0, "first"), Flush(0), ReceiveWake(1, "second"), EmitNext(1)];
      && IsRun(Start(2), run)
      && Final(Start(2), run).received == [Event(0, false, "first"), Event(1, true, "second")]
      && Final(Start(2), run).emitted == [Event(1, true, "second")]
  {
    var run := [ReceiveSilent(0, "first"), Flush(0), ReceiveWake(1, "second"), EmitNext(1)];
    OneMore(Start(2), [], run[0]);
    assert [] + [run[0]] == run[..1];
    OneMore(Start(2), run[..1], run[1]);
    assert run[..1] + [run[1]] == run[..2];
    OneMore(Start(2), run[..2], run[2]);
    assert run[..2] + [run[2]] == run[..3];
    assert Final(Start(2), run[..3]).threads[1] == Emitting([], Some(Event(1, true, "second")));
    OneMore(Start(2), run[..3], run[3]);
    assert run[..3] + [run[3]] == run;
  }

  lemma OneMore(s: State, run: seq<Label>, l: Label)
    requires IsRun(s, run) && Enabled(Final(s, run), l)
    ensures IsRun(s, run + [l]) && Final(s, run + [l]) == Next(Final(s, run), l)
  {
    assert (run + [l])[..|run|] == run;
  }
}
