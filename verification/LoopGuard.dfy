/**
 The loop guard of notify-on-idle: when the adapter lets itself publish as a
 source. Acks, disconnects and publish attempts arrive in any order.
 */
module LoopGuard {
  import opened Prelude

  /** The config document as read for one publish; `routed` are the sources its routing sends to the opencode adapter. */
  datatype Document = Document(version: int, routed: set<string>)

  datatype Event =
    | Ack(sources: seq<string>)
    | Disconnect
    | Attempt(source: string, live: Option<Document>)

  datatype Guard = Guard(accepted: set<string>, confirmed: bool, latched: set<string>)

  const Start: Guard := Guard({}, false, {})

  predicate Supported(d: Document) {
    d.version == 0 || d.version == 1
  }

  /** The file was readable, of a known version, and routed the source back here. */
  predicate SeesLoop(source: string, live: Option<Document>) {
    live.Some? && Supported(live.value) && source in live.value.routed
  }

  /** A publish goes ahead: both guards clear it. */
  predicate Publishes(g: Guard, source: string, live: Option<Document>) {
    && (live.Some? ==> Supported(live.value) && source !in live.value.routed)
    && g.confirmed
    && source !in g.accepted
    && source !in g.latched
  }

  function Step(g: Guard, e: Event): Guard {
    match e
    case Ack(sources) =>
      var accepted := set s | s in sources;
      Guard(accepted, true, g.latched * accepted)
    case Disconnect => g.(confirmed := false)
    case Attempt(source, live) => if SeesLoop(source, live) then g.(latched := g.latched + {source}) else g
  }

  class LoopGuardState {
    var acceptedSources: set<string>
    var ackConfirmed: bool
    var latchedSources: set<string>

    ghost function Contents(): Guard
      reads this
    {
      Guard(acceptedSources, ackConfirmed, latchedSources)
    }

    constructor ()
      ensures Contents() == Start
    {
      acceptedSources, ackConfirmed, latchedSources := {}, false, {};
    }

    /** A hello_ack: replace the snapshot and drop every latch it does not accept. */
    method SetAcceptedSources(sources: seq<string>)
      modifies this
      ensures Contents() == Step(old(Contents()), Ack(sources))
    {
      acceptedSources := set s | s in sources;
      ackConfirmed := true;
      var left := latchedSources;
      while left != {}
        invariant acceptedSources == (set s | s in sources) && ackConfirmed
        invariant left <= old(latchedSources)
        invariant latchedSources == (old(latchedSources) * acceptedSources) + left
        decreases left
      {
        var latched :| latched in left;
        left := left - {latched};
        if latched !in acceptedSources {
          latchedSources := latchedSources - {latched};
        }
      }
    }

    method InvalidateAcceptedSources()
      modifies this
      ensures Contents() == Step(old(Contents()), Disconnect)
    {
      ackConfirmed := false;
    }

    /** Decide one publish; seeing the loop on disk latches the source even though it refuses. */
    method PublishRefused(source: string, live: Option<Document>) returns (refused: bool)
      modifies this
      ensures refused <==> !Publishes(old(Contents()), source, live)
      ensures Contents() == Step(old(Contents()), Attempt(source, live))
    {
      if live.Some? {
        if live.value.version != 0 && live.value.version != 1 {
          return true;
        }
        if source in live.value.routed {
          latchedSources := latchedSources + {source};
          return true;
        }
      }
      if !ackConfirmed {
        return true;
      }
      if source in acceptedSources {
        return true;
      }
      if source in latchedSources {
        return true;
      }
      refused := false;
    }
  }

  // ── the rule over whole traces ─────────────────────────────────────────────

  function After(trace: seq<Event>): Guard {
    if trace == [] then Start else Step(After(trace[..|trace| - 1]), trace[|trace| - 1])
  }

  predicate Excludes(e: Event, source: string) {
    e.Ack? && source !in e.sources
  }

  /** An attempt that did not see the loop. */
  predicate Harmless(e: Event, source: string) {
    e.Attempt? && !(e.source == source && SeesLoop(source, e.live))
  }

  ghost predicate ClearedAt(trace: seq<Event>, source: string, k: nat) {
    k < |trace| && Excludes(trace[k], source) && forall j :: k < j < |trace| ==> Harmless(trace[j], source)
  }

  /** The latest ack-or-disconnect is an ack that leaves the source out, and no attempt since saw the loop on disk. */
  ghost predicate Cleared(trace: seq<Event>, source: string) {
    exists k: nat :: ClearedAt(trace, source, k)
  }

  lemma ClearedByLast(trace: seq<Event>, source: string)
    requires trace != []
    ensures var front, e := trace[..|trace| - 1], trace[|trace| - 1];
      Cleared(trace, source) <==> Excludes(e, source) || (Harmless(e, source) && Cleared(front, source))
  {
    var n := |trace| - 1;
    var front, e := trace[..n], trace[n];
    if Cleared(trace, source) {
      var k: nat :| ClearedAt(trace, source, k);
      if k < n { assert ClearedAt(front, source, k); }
    }
    if Excludes(e, source) { assert ClearedAt(trace, source, n); }
    if Harmless(e, source) && Cleared(front, source) {
      var k: nat :| ClearedAt(front, source, k);
      assert ClearedAt(trace, source, k);
    }
  }

  /** What the guard's three variables say about a source, in terms of the trace alone. */
  lemma {:induction false} GuardMeansCleared(trace: seq<Event>, source: string)
    ensures var g := After(trace);
      g.confirmed && source !in g.accepted && source !in g.latched <==> Cleared(trace, source)
  {
    if trace != [] {
      GuardMeansCleared(trace[..|trace| - 1], source);
      ClearedByLast(trace, source);
    }
  }

  /**
   Over every trace, a publish goes ahead if and only if the latest ack or
   disconnect was an ack that excludes the source, no attempt since saw the file
   route it here, and this attempt's file, when readable, is v0/v1 and does not.
   */
  lemma PublishesIff(trace: seq<Event>, source: string, live: Option<Document>)
    ensures Publishes(After(trace), source, live) <==>
      Cleared(trace, source) && (live.Some? ==> Supported(live.value) && source !in live.value.routed)
  {
    GuardMeansCleared(trace, source);
  }
}
