/**
 Liveness: the ping/pong heartbeat with its bounded forgiveness of a busy peer.
 A ping is two steps, because the loop suspends in the write: the frame is
 handed to the transport, and the flag is set when the write returns. Pongs are
 handled in between as at any other time.
 */
module Heartbeat {
  import opened Prelude

  const MAX_BUSY_MISSED_PONGS: nat := 4

  /** What is kept per connection, and whether the loop is suspended in writing it a ping. */
  datatype Peer = Peer(pendingPing: bool, busyMissed: nat, sending: bool)

  const Connected: Peer := Peer(false, 0, false)

  /** A tick meets the connection with so many deliveries in flight. */
  datatype Event = Ticked(inFlight: nat) | SendReturned | SendFailed | Ponged

  /** The loop visits no connection while it is suspended in a write. */
  predicate Enabled(p: Peer, e: Event) {
    match e
    case Ticked(_) => !p.sending
    case SendReturned => p.sending
    case SendFailed => p.sending
    case Ponged => true
  }

  /** A pong is overdue and no longer forgiven. */
  predicate Overdue(p: Peer, inFlight: nat) {
    p.pendingPing && (inFlight == 0 || p.busyMissed >= MAX_BUSY_MISSED_PONGS)
  }

  function Step(p: Peer, e: Event): Peer {
    match e
    case Ticked(n) =>
      if !p.pendingPing then p.(sending := true)
      else if Overdue(p, n) then p
      else p.(busyMissed := p.busyMissed + 1)
    case SendReturned => p.(pendingPing := true, sending := false)
    case SendFailed => p.(sending := false)
    case Ponged => p.(pendingPing := false, busyMissed := 0)
  }

  /** The connection is marked for closing. */
  predicate Marks(p: Peer, e: Event) {
    e.SendFailed? || (e.Ticked? && Overdue(p, e.inFlight))
  }

  // ── runs of one connection ─────────────────────────────────────────────────

  function After(events: seq<Event>): Peer {
    if events == [] then Connected else Step(After(events[..|events| - 1]), events[|events| - 1])
  }

  predicate IsRun(events: seq<Event>) {
    events == []
    || (IsRun(events[..|events| - 1]) && Enabled(After(events[..|events| - 1]), events[|events| - 1]))
  }

  lemma OneMore(events: seq<Event>, e: Event)
    ensures After(events + [e]) == Step(After(events), e)
    ensures IsRun(events + [e]) <==> IsRun(events) && Enabled(After(events), e)
  {
    assert (events + [e])[..|events|] == events;
  }

  lemma {:induction false} RunPrefix(events: seq<Event>, n: nat)
    requires IsRun(events) && n <= |events|
    ensures IsRun(events[..n])
    ensures n < |events| ==> Enabled(After(events[..n]), events[n])
    decreases |events|
  {
    if n == |events| {
      assert events[..n] == events;
    } else if n < |events| - 1 {
      RunPrefix(events[..|events| - 1], n);
      assert events[..|events| - 1][..n] == events[..n];
    }
  }

  /** Forgiveness is bounded, counts only while a ping is unanswered, and no flag is up while a ping is being written. */
  lemma {:induction false} ForgivenessBounded(events: seq<Event>)
    requires IsRun(events)
    ensures After(events).busyMissed <= MAX_BUSY_MISSED_PONGS
    ensures After(events).busyMissed > 0 ==> After(events).pendingPing
    ensures After(events).sending ==> !After(events).pendingPing
  {
    if events != [] { ForgivenessBounded(events[..|events| - 1]); }
  }

  // ── the object ─────────────────────────────────────────────────────────────

  function CountOf(inFlight: map<nat, nat>, sid: nat): nat {
    if sid in inFlight then inFlight[sid] else 0
  }

  /** `listed[at]` is where the round stands; `suspended` says it stands in that connection's ping. */
  class Server {
    var peers: map<nat, Peer>
    var listed: seq<nat>
    var at: nat
    var suspended: bool
    var stale: seq<nat>
    ghost var trace: map<nat, seq<Event>>

    /** Every connection is where its own events brought it. */
    ghost predicate Traced()
      reads this`peers, this`trace
    {
      && trace.Keys == peers.Keys
      && forall sid :: sid in peers ==> IsRun(trace[sid]) && peers[sid] == After(trace[sid])
    }

    /** The round walks a snapshot of known connections. */
    ghost predicate Walking()
      reads this`peers, this`listed, this`at, this`suspended
    {
      && Distinct(listed) && at <= |listed| && (suspended ==> at < |listed|)
      && (forall sid :: sid in listed ==> sid in peers)
    }

    /** The connection being pinged is the one a suspended round stands at. */
    ghost predicate PingsHere()
      requires Walking()
      reads this`peers, this`listed, this`at, this`suspended
    {
      forall sid :: sid in peers ==> (peers[sid].sending <==> suspended && sid == listed[at])
    }

    ghost predicate Valid()
      reads this
    {
      Traced() && Walking() && PingsHere()
    }

    constructor ()
      ensures Valid() && peers == map[] && listed == []
    {
      peers, listed, at, suspended, stale, trace := map[], [], 0, false, [], map[];
    }

    method Connect(sid: nat)
      requires Valid() && sid !in peers
      modifies this`peers, this`trace
      ensures Valid() && peers == old(peers)[sid := Connected] && trace == old(trace)[sid := []]
    {
      peers := peers[sid := Connected];
      trace := trace[sid := []];
    }

    /** A new round walks a snapshot of the connections. */
    method BeginRound(snapshot: seq<nat>)
      requires Valid() && !suspended && at == |listed| && Distinct(snapshot)
      requires forall sid :: sid in snapshot ==> sid in peers
      modifies this`listed, this`at, this`stale
      ensures Valid() && listed == snapshot && at == 0 && stale == []
    {
      listed, at, stale := snapshot, 0, [];
    }

    /** One connection takes one step. */
    method Move(sid: nat, p: Peer, e: Event)
      requires Traced() && sid in peers && Enabled(peers[sid], e) && p == Step(peers[sid], e)
      modifies this`peers, this`trace
      ensures Traced() && peers == old(peers)[sid := p]
      ensures trace == old(trace)[sid := old(trace)[sid] + [e]]
    {
      OneMore(trace[sid], e);
      peers := peers[sid := p];
      trace := trace[sid := trace[sid] + [e]];
    }

    /** Write a ping, and suspend. */
    method WritePing(inFlight: nat)
      requires Valid() && !suspended && at < |listed| && !peers[listed[at]].pendingPing
      modifies this`peers, this`trace, this`suspended
      ensures Valid() && suspended
      ensures trace == TickOne(old(trace), listed[at], inFlight)
    {
      var sid := listed[at];
      assert sid in listed;
      Move(sid, peers[sid].(sending := true), Ticked(inFlight));
      suspended := true;
    }

    /** A pong is due: forgive the connection or mark it. */
    method Judge(inFlight: nat)
      requires Valid() && !suspended && at < |listed| && peers[listed[at]].pendingPing
      modifies this`peers, this`trace, this`stale, this`at
      ensures Valid() && at == old(at) + 1
      ensures trace == TickOne(old(trace), listed[old(at)], inFlight)
      ensures stale == old(stale) + (if Overdue(old(peers)[listed[old(at)]], inFlight) then [listed[old(at)]] else [])
    {
      var sid := listed[at];
      assert sid in listed;
      var p := peers[sid];
      if inFlight > 0 && p.busyMissed < MAX_BUSY_MISSED_PONGS {
        p := p.(busyMissed := p.busyMissed + 1);
      } else {
        stale := stale + [sid];
      }
      Move(sid, p, Ticked(inFlight));
      at := at + 1;
    }

    /** Walk past the connections that owe a pong; nothing else runs meanwhile. */
    method JudgeOn(inFlight: map<nat, nat>)
      requires Valid() && !suspended
      modifies this`peers, this`trace, this`stale, this`at
      ensures Valid() && old(at) <= at && (at < |listed| ==> !peers[listed[at]].pendingPing)
      ensures trace == TicksTo(old(trace), listed, old(at), at, inFlight)
      ensures stale == old(stale) + MarkedAmong(old(trace), listed, old(at), at, inFlight)
    {
      while at < |listed| && peers[listed[at]].pendingPing
        invariant Valid() && old(at) <= at
        invariant trace == TicksTo(old(trace), listed, old(at), at, inFlight)
        invariant stale == old(stale) + MarkedAmong(old(trace), listed, old(at), at, inFlight)
      {
        assert listed[at] in listed;
        Judge(CountOf(inFlight, listed[at]));
      }
    }

    /** Walk on until a ping has been written or the round is over. */
    method Advance(inFlight: map<nat, nat>)
      requires Valid() && !suspended
      modifies this`peers, this`trace, this`stale, this`at, this`suspended
      ensures Valid() && old(at) <= at && (suspended <==> at < |listed|)
      ensures trace == TicksTo(old(trace), listed, old(at), if suspended then at + 1 else at, inFlight)
      ensures stale == old(stale) + MarkedAmong(old(trace), listed, old(at), at, inFlight)
    {
      JudgeOn(inFlight);
      if at < |listed| {
        assert listed[at] in listed;
        WritePing(CountOf(inFlight, listed[at]));
      }
    }

    /** The write returns: only now is the flag set. */
    method PingReturned()
      requires Valid() && suspended
      modifies this
      ensures Valid() && !suspended && listed == old(listed) && at == old(at) + 1 && stale == old(stale)
      ensures trace == old(trace)[listed[old(at)] := old(trace)[listed[old(at)]] + [SendReturned]]
    {
      var sid := listed[at];
      assert sid in listed;
      Move(sid, peers[sid].(pendingPing := true, sending := false), SendReturned);
      suspended, at := false, at + 1;
    }

    method PingFailed()
      requires Valid() && suspended
      modifies this
      ensures Valid() && !suspended && listed == old(listed) && at == old(at) + 1
      ensures stale == old(stale) + [listed[old(at)]]
      ensures trace == old(trace)[listed[old(at)] := old(trace)[listed[old(at)]] + [SendFailed]]
    {
      var sid := listed[at];
      assert sid in listed;
      Move(sid, peers[sid].(sending := false), SendFailed);
      stale := stale + [sid];
      suspended, at := false, at + 1;
    }

    /** A pong may be handled at any time, also while the round is suspended. */
    method Pong(sid: nat)
      requires Valid() && sid in peers
      modifies this`peers, this`trace
      ensures Valid() && peers == old(peers)[sid := old(peers)[sid].(pendingPing := false, busyMissed := 0)]
      ensures trace == old(trace)[sid := old(trace)[sid] + [Ponged]]
    {
      Move(sid, peers[sid].(pendingPing := false, busyMissed := 0), Ponged);
    }
  }

  type Traces = map<nat, seq<Event>>

  function TickOne(traces: Traces, sid: nat, inFlight: nat): Traces {
    if sid in traces then traces[sid := traces[sid] + [Ticked(inFlight)]] else traces
  }

  /** A tick for each connection listed from `lo` up to `hi`, in turn. */
  function TicksTo(traces: Traces, listed: seq<nat>, lo: nat, hi: nat, inFlight: map<nat, nat>): Traces
    requires lo <= hi <= |listed|
  {
    if hi == lo then traces
    else TickOne(TicksTo(traces, listed, lo, hi - 1, inFlight), listed[hi - 1], CountOf(inFlight, listed[hi - 1]))
  }

  /** Those of them that their tick marks. */
  function MarkedAmong(traces: Traces, listed: seq<nat>, lo: nat, hi: nat, inFlight: map<nat, nat>): seq<nat>
    requires lo <= hi <= |listed|
  {
    if hi == lo then []
    else
      var sid := listed[hi - 1];
      var ticked := TicksTo(traces, listed, lo, hi - 1, inFlight);
      MarkedAmong(traces, listed, lo, hi - 1, inFlight)
        + if sid in ticked && Overdue(After(ticked[sid]), CountOf(inFlight, sid)) then [sid] else []
  }

  /** The connection is listed from `lo` up to `hi`. */
  predicate Among(listed: seq<nat>, lo: nat, hi: nat, sid: nat)
    requires lo <= hi <= |listed|
  {
    exists k :: lo <= k < hi && listed[k] == sid
  }

  lemma {:induction false} WalkTicks(traces: Traces, listed: seq<nat>, lo: nat, hi: nat, inFlight: map<nat, nat>, sid: nat)
    requires lo <= hi <= |listed| && Distinct(listed) && sid in traces
    ensures var ticked := TicksTo(traces, listed, lo, hi, inFlight);
      && ticked.Keys == traces.Keys
      && ticked[sid] == if Among(listed, lo, hi, sid) then traces[sid] + [Ticked(CountOf(inFlight, sid))] else traces[sid]
  {
    if lo < hi {
      WalkTicks(traces, listed, lo, hi - 1, inFlight, sid);
    }
  }

  lemma {:induction false} WalkMarks(traces: Traces, listed: seq<nat>, lo: nat, hi: nat, inFlight: map<nat, nat>, sid: nat)
    requires lo <= hi <= |listed| && Distinct(listed) && sid in traces
    ensures sid in MarkedAmong(traces, listed, lo, hi, inFlight) <==>
              Among(listed, lo, hi, sid) && Marks(After(traces[sid]), Ticked(CountOf(inFlight, sid)))
  {
    if lo < hi {
      WalkMarks(traces, listed, lo, hi - 1, inFlight, sid);
      WalkTicks(traces, listed, lo, hi - 1, inFlight, sid);
    }
  }

  /** A walk gives each connection on its way exactly one tick, and marks exactly those that their own tick marks. */
  lemma WalkExact(traces: Traces, listed: seq<nat>, lo: nat, hi: nat, inFlight: map<nat, nat>)
    requires lo <= hi <= |listed| && Distinct(listed)
    ensures forall sid :: sid in traces ==>
              var ticked := TicksTo(traces, listed, lo, hi, inFlight);
              && sid in ticked
              && ticked[sid] == (if Among(listed, lo, hi, sid) then traces[sid] + [Ticked(CountOf(inFlight, sid))] else traces[sid])
              && (sid in MarkedAmong(traces, listed, lo, hi, inFlight) <==>
                    Among(listed, lo, hi, sid) && Marks(After(traces[sid]), Ticked(CountOf(inFlight, sid))))
  {
    forall sid | sid in traces
      ensures sid in TicksTo(traces, listed, lo, hi, inFlight)
      ensures TicksTo(traces, listed, lo, hi, inFlight)[sid]
           == if Among(listed, lo, hi, sid) then traces[sid] + [Ticked(CountOf(inFlight, sid))] else traces[sid]
      ensures sid in MarkedAmong(traces, listed, lo, hi, inFlight) <==>
                Among(listed, lo, hi, sid) && Marks(After(traces[sid]), Ticked(CountOf(inFlight, sid)))
    {
      WalkTicks(traces, listed, lo, hi, inFlight, sid);
      WalkMarks(traces, listed, lo, hi, inFlight, sid);
    }
  }

  // ── what the flag means ────────────────────────────────────────────────────

  predicate Silent(events: seq<Event>) {
    forall j :: 0 <= j < |events| ==> !events[j].Ponged?
  }

  /** The ping whose write returned at `r` has had no pong handled since. */
  predicate UnansweredSince(events: seq<Event>, r: int) {
    0 <= r < |events| && events[r].SendReturned? && Silent(events[r + 1..])
  }

  /** Ticks that met a delivery in flight. */
  function BusyTicks(events: seq<Event>): nat {
    if events == [] then 0
    else
      var last := events[|events| - 1];
      BusyTicks(events[..|events| - 1]) + if last.Ticked? && last.inFlight > 0 then 1 else 0
  }

  function AtMost(n: nat, cap: nat): nat {
    if n <= cap then n else cap
  }

  lemma SnocTail(events: seq<Event>, e: Event, r: nat)
    requires r <= |events|
    ensures (events + [e])[r..] == events[r..] + [e]
  {
  }

  lemma UnansweredNext(events: seq<Event>, e: Event, r: nat)
    requires r < |events|
    ensures UnansweredSince(events + [e], r) <==> UnansweredSince(events, r) && !e.Ponged?
  {
    SnocTail(events, e, r + 1);
    var tail := events[r + 1..];
    if Silent(tail + [e]) {
      assert forall j :: 0 <= j < |tail| ==> (tail + [e])[j] == tail[j];
      assert (tail + [e])[|tail|] == e;
    }
  }

  /** The flag is up exactly when some ping's write returned and no pong has been handled since. */
  lemma {:induction false} FlagMeansUnanswered(events: seq<Event>)
    requires IsRun(events)
    ensures After(events).pendingPing <==> exists r :: UnansweredSince(events, r)
  {
    if events != [] {
      var front, e := events[..|events| - 1], events[|events| - 1];
      assert events == front + [e];
      FlagMeansUnanswered(front);
      ForgivenessBounded(front);
      if After(events).pendingPing {
        if e.SendReturned? {
          assert UnansweredSince(events, |front|);
        } else {
          var r :| UnansweredSince(front, r);
          UnansweredNext(front, e, r);
        }
      }
      if exists r :: UnansweredSince(events, r) {
        var r :| UnansweredSince(events, r);
        if r < |front| { UnansweredNext(front, e, r); }
      }
    }
  }

  lemma UnansweredTick(events: seq<Event>, r: nat)
    requires IsRun(events) && UnansweredSince(events, r) && r < |events| - 1
    ensures UnansweredSince(events[..|events| - 1], r) && After(events[..|events| - 1]).pendingPing
    ensures events[|events| - 1].Ticked?
  {
    var front, e := events[..|events| - 1], events[|events| - 1];
    assert events == front + [e];
    UnansweredNext(front, e, r);
    FlagMeansUnanswered(front);
    ForgivenessBounded(front);
  }

  /** Misses forgiven to an unanswered ping: one for each busy tick since its write returned, up to the limit. */
  lemma {:induction false} ForgivenCount(events: seq<Event>, r: nat)
    requires IsRun(events) && UnansweredSince(events, r)
    ensures After(events).busyMissed == AtMost(BusyTicks(events[r + 1..]), MAX_BUSY_MISSED_PONGS)
    decreases |events|
  {
    var n := |events| - 1;
    var front := events[..n];
    if r == n {
      ForgivenessBounded(front);
      assert events[r + 1..] == [];
    } else {
      UnansweredTick(events, r);
      ForgivenCount(front, r);
      assert events[r + 1..][..n - r - 1] == front[r + 1..];
    }
  }

  /**
   When exactly a peer is timed out: at a tick after which no pong has been
   handled since a ping's write returned, if the peer is idle or has been busy at
   four ticks since then.
   */
  lemma TimedOutIff(events: seq<Event>, inFlight: nat)
    requires IsRun(events + [Ticked(inFlight)])
    ensures Marks(After(events), Ticked(inFlight)) <==>
              exists r :: UnansweredSince(events, r)
                && (inFlight == 0 || BusyTicks(events[r + 1..]) >= MAX_BUSY_MISSED_PONGS)
  {
    OneMore(events, Ticked(inFlight));
    FlagMeansUnanswered(events);
    forall r | UnansweredSince(events, r)
      ensures After(events).busyMissed == AtMost(BusyTicks(events[r + 1..]), MAX_BUSY_MISSED_PONGS)
    {
      ForgivenCount(events, r);
    }
  }

  // ── peers that answer ──────────────────────────────────────────────────────

  /** The tick at `i` wrote a ping. */
  predicate PingAt(events: seq<Event>, i: int) {
    0 <= i < |events| && events[i].Ticked? && !After(events[..i]).pendingPing
  }

  predicate PongBetween(events: seq<Event>, i: int, j: int) {
    exists k :: i < k < j && 0 <= k < |events| && events[k].Ponged?
  }

  /** Every ping has a pong handled before the next tick. */
  ghost predicate AnswersEveryPing(events: seq<Event>) {
    forall i, j :: PingAt(events, i) && i < j < |events| && events[j].Ticked? ==> PongBetween(events, i, j)
  }

  /** The pong at `k` was handled while a ping was still being written. */
  predicate EarlyPong(events: seq<Event>, k: int) {
    0 <= k < |events| && events[k].Ponged? && After(events[..k]).sending
  }

  /** While a ping is being written nothing has happened since but pongs. */
  lemma {:induction false} PingBeingWritten(events: seq<Event>) returns (i: nat)
    requires IsRun(events) && After(events).sending
    ensures PingAt(events, i)
    ensures forall k :: i < k < |events| ==> EarlyPong(events, k)
  {
    var n := |events| - 1;
    var front := events[..n];
    if events[n].Ticked? {
      i := n;
    } else {
      i := PingBeingWritten(front);
      assert front[..i] == events[..i];
      forall k | i < k < n ensures EarlyPong(events, k) {
        assert EarlyPong(front, k) && front[..k] == events[..k];
      }
    }
  }

  /** The ping whose write returned at `r` was answered before it returned, and not after. */
  ghost predicate Overwritten(events: seq<Event>, r: int) {
    UnansweredSince(events, r) && exists k :: k < r && EarlyPong(events, k) && NothingTicked(events, k, r)
  }

  predicate NothingTicked(events: seq<Event>, k: int, r: int) {
    forall j :: k < j < r && 0 <= j < |events| ==> !events[j].Ticked?
  }

  lemma NoPongAfter(events: seq<Event>, r: nat)
    requires UnansweredSince(events, r)
    ensures forall j :: r < j < |events| ==> !events[j].Ponged?
  {
    forall j | r < j < |events| ensures !events[j].Ponged? {
      assert events[r + 1..][j - r - 1] == events[j];
    }
  }

  lemma MissedOnlyWhenOverwritten(events: seq<Event>, inFlight: nat, r: nat)
    requires IsRun(events + [Ticked(inFlight)]) && AnswersEveryPing(events + [Ticked(inFlight)])
    requires UnansweredSince(events, r)
    ensures Overwritten(events, r)
  {
    var all := events + [Ticked(inFlight)];
    RunPrefix(all, r);
    assert all[..r] == events[..r] && all[r] == events[r];
    var i := PingBeingWritten(events[..r]);
    assert events[..r][..i] == events[..i] == all[..i];
    assert PingAt(all, i) && all[|events|].Ticked?;
    assert PongBetween(all, i, |events|);
    var k :| i < k < |events| && all[k].Ponged?;
    NoPongAfter(events, r);
    assert EarlyPong(events[..r], k) && events[..r][..k] == events[..k];
    forall j | k < j < r && 0 <= j < |events| ensures !events[j].Ticked? {
      assert EarlyPong(events[..r], j);
    }
    assert EarlyPong(events, k) && NothingTicked(events, k, r);
  }

  /**
   A peer that answers every ping before the next tick is timed out exactly when
   its answer was handled while the ping was still being written, so that the
   returning write put the flag up again, and it is idle or out of forgiveness.
   */
  lemma PromptPeerTimedOutIff(events: seq<Event>, inFlight: nat)
    requires IsRun(events + [Ticked(inFlight)]) && AnswersEveryPing(events + [Ticked(inFlight)])
    ensures Marks(After(events), Ticked(inFlight)) <==>
              exists r :: Overwritten(events, r)
                && (inFlight == 0 || BusyTicks(events[r + 1..]) >= MAX_BUSY_MISSED_PONGS)
  {
    TimedOutIff(events, inFlight);
    forall r | UnansweredSince(events, r) ensures Overwritten(events, r) {
      MissedOnlyWhenOverwritten(events, inFlight, r);
    }
  }

  /** If no pong is ever handled while a ping is being written, a peer that answers every ping is never timed out. */
  lemma PromptPeerNeverTimedOut(events: seq<Event>, inFlight: nat)
    requires IsRun(events + [Ticked(inFlight)]) && AnswersEveryPing(events + [Ticked(inFlight)])
    requires forall k :: !EarlyPong(events, k)
    ensures !Marks(After(events), Ticked(inFlight))
  {
    PromptPeerTimedOutIff(events, inFlight);
  }

  /** A peer that answered its only ping is timed out at the next tick. */
  lemma AnsweredYetTimedOut()
    ensures var events := [Ticked(0), Ponged, SendReturned];
      && IsRun(events + [Ticked(0)]) && AnswersEveryPing(events + [Ticked(0)])
      && Marks(After(events), Ticked(0))
  {
    var events := [Ticked(0), Ponged, SendReturned];
    OneMore([], Ticked(0));
    assert [] + [Ticked(0)] == [Ticked(0)];
    OneMore([Ticked(0)], Ponged);
    assert [Ticked(0)] + [Ponged] == [Ticked(0), Ponged];
    OneMore([Ticked(0), Ponged], SendReturned);
    assert [Ticked(0), Ponged] + [SendReturned] == events;
    OneMore(events, Ticked(0));
    var all := events + [Ticked(0)];
    assert all[..3] == events;
    assert all[1].Ponged? && PongBetween(all, 0, 3);
  }

  // ── peers that do not ──────────────────────────────────────────────────────

  function Ticks(events: seq<Event>): nat {
    if events == [] then 0
    else Ticks(events[..|events| - 1]) + if events[|events| - 1].Ticked? then 1 else 0
  }

  /** Ticks a silent peer can still be granted before it must be marked. */
  function Patience(p: Peer): int {
    if p.pendingPing then MAX_BUSY_MISSED_PONGS - p.busyMissed
    else if p.sending then MAX_BUSY_MISSED_PONGS
    else MAX_BUSY_MISSED_PONGS + 1
  }

  predicate Sound(p: Peer) {
    && p.busyMissed <= MAX_BUSY_MISSED_PONGS && (p.busyMissed > 0 ==> p.pendingPing)
    && (p.sending ==> !p.pendingPing)
  }

  /** Short of a pong, every tick marks the peer or uses up patience, and no other step gives any back. */
  lemma PatienceFalls(p: Peer, e: Event)
    requires Sound(p) && Enabled(p, e) && !e.Ponged?
    ensures Sound(Step(p, e))
    ensures Marks(p, e) || 0 <= Patience(Step(p, e)) <= Patience(p) - (if e.Ticked? then 1 else 0)
  {
  }

  predicate MarkedAt(before: seq<Event>, more: seq<Event>, i: nat)
    requires i < |more|
  {
    Marks(After(before + more[..i]), more[i])
  }

  lemma {:induction false} PatienceSpent(before: seq<Event>, more: seq<Event>)
    requires IsRun(before + more) && Silent(more)
    requires forall i :: 0 <= i < |more| ==> !MarkedAt(before, more, i)
    ensures IsRun(before)
    ensures Sound(After(before)) && Sound(After(before + more))
    ensures 0 <= Patience(After(before + more)) <= Patience(After(before)) - Ticks(more)
    decreases |more|
  {
    if more == [] {
      assert before + more == before;
      ForgivenessBounded(before);
    } else {
      var n := |more| - 1;
      var front := more[..n];
      assert before + more == (before + front) + [more[n]];
      OneMore(before + front, more[n]);
      forall i | 0 <= i < n ensures !MarkedAt(before, front, i) {
        assert front[..i] == more[..i];
        assert !MarkedAt(before, more, i);
      }
      PatienceSpent(before, front);
      assert !MarkedAt(before, more, n);
      PatienceFalls(After(before + front), more[n]);
    }
  }

  /**
   A peer from which nothing is heard over six ticks that take place - whatever
   happened before and however many deliveries it has in flight - is marked by
   the sixth.
   */
  lemma SilentPeerReaped(before: seq<Event>, more: seq<Event>)
    requires IsRun(before + more) && Silent(more) && Ticks(more) >= MAX_BUSY_MISSED_PONGS + 2
    ensures exists i :: 0 <= i < |more| && MarkedAt(before, more, i) && Ticks(more[..i]) < MAX_BUSY_MISSED_PONGS + 2
  {
    var n := SixthTick(more);
    var six := more[..n];
    assert before + six == (before + more)[..|before| + n];
    RunPrefix(before + more, |before| + n);
    if forall i :: 0 <= i < n ==> !MarkedAt(before, six, i) {
      PatienceSpent(before, six);
      assert false;
    }
    var i :| 0 <= i < n && MarkedAt(before, six, i);
    assert six[..i] == more[..i];
    assert MarkedAt(before, more, i);
    TicksGrow(six, i);
  }

  /** The shortest beginning with six ticks. */
  lemma {:induction false} SixthTick(more: seq<Event>) returns (n: nat)
    requires Ticks(more) >= MAX_BUSY_MISSED_PONGS + 2
    ensures 0 < n <= |more| && Ticks(more[..n]) == MAX_BUSY_MISSED_PONGS + 2 && more[n - 1].Ticked?
    ensures Ticks(more[..n][..n - 1]) == MAX_BUSY_MISSED_PONGS + 1
  {
    var front := more[..|more| - 1];
    if Ticks(front) >= MAX_BUSY_MISSED_PONGS + 2 {
      n := SixthTick(front);
      assert front[..n] == more[..n];
    } else {
      n := |more|;
      assert more[..n] == more;
    }
  }

  /** Before the last tick of a sequence there are fewer ticks than in all of it. */
  lemma {:induction false} TicksGrow(events: seq<Event>, i: nat)
    requires i < |events| && events[|events| - 1].Ticked?
    ensures Ticks(events[..i]) < Ticks(events)
  {
    var front := events[..|events| - 1];
    TicksMonotone(front, i);
    assert front[..i] == events[..i];
  }

  lemma {:induction false} TicksMonotone(events: seq<Event>, i: nat)
    requires i <= |events|
    ensures Ticks(events[..i]) <= Ticks(events)
    decreases |events|
  {
    if i == |events| {
      assert events[..i] == events;
    } else {
      TicksMonotone(events[..|events| - 1], i);
      assert events[..|events| - 1][..i] == events[..i];
    }
  }

  /** A silent, unmarked connection: its flag and count are fixed by the ticks so far. */
  lemma {:induction false} SilentLevel(events: seq<Event>)
    requires IsRun(events) && Silent(events)
    requires forall j :: 0 <= j < |events| ==> !MarkedAt([], events, j)
    ensures var p, n := After(events), Ticks(events);
      && n <= MAX_BUSY_MISSED_PONGS + 1
      && (n == 0 ==> p == Connected)
      && (n > 0 ==> p == Peer(true, n - 1, false) || (n == 1 && p == Peer(false, 0, true)))
  {
    if events != [] {
      var n := |events| - 1;
      var front := events[..n];
      forall j | 0 <= j < n ensures !MarkedAt([], front, j) {
        assert [] + front[..j] == [] + events[..j];
        assert !MarkedAt([], events, j);
      }
      SilentLevel(front);
      assert !MarkedAt([], events, n);
      assert [] + events[..n] == front;
    }
  }

  /**
   When exactly a connection from which no pong is ever heard is first marked:
   when writing its ping fails, or at a tick after the first that finds it idle,
   or at the sixth however busy it is.
   */
  lemma FirstMarkExact(events: seq<Event>, e: Event)
    requires IsRun(events + [e]) && Silent(events + [e])
    requires forall j :: 0 <= j < |events| ==> !MarkedAt([], events, j)
    ensures Marks(After(events), e) <==>
              e.SendFailed?
              || (e.Ticked? && Ticks(events) >= 1 && (e.inFlight == 0 || Ticks(events) >= MAX_BUSY_MISSED_PONGS + 1))
  {
    OneMore(events, e);
    assert Silent(events) by {
      assert forall j :: 0 <= j < |events| ==> (events + [e])[j] == events[j];
    }
    SilentLevel(events);
  }

  /** Six is tight: a peer busy at each tick survives five. */
  lemma {:induction false} FiveTicksTolerated(events: seq<Event>)
    requires IsRun(events) && Silent(events) && Ticks(events) <= MAX_BUSY_MISSED_PONGS + 1
    requires forall j :: 0 <= j < |events| ==> !events[j].SendFailed? && (events[j].Ticked? ==> events[j].inFlight > 0)
    ensures forall j :: 0 <= j < |events| ==> !MarkedAt([], events, j)
  {
    if events != [] {
      var n := |events| - 1;
      var front, e := events[..n], events[n];
      FiveTicksTolerated(front);
      assert events == front + [e];
      FirstMarkExact(front, e);
      assert [] + events[..n] == front;
      forall j | 0 <= j < n ensures !MarkedAt([], events, j) {
        assert front[..j] == events[..j];
        assert !MarkedAt([], front, j);
      }
    }
  }
}
