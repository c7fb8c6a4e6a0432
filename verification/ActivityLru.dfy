/**
 Which sessions may notify on idle: an insertion-ordered map used as a bounded
 least-recently-active list, kept here as the sequence of its keys, oldest first.
 */
module ActivityLru {
  import opened Prelude

  const MAX_ACTIVE_SESSIONS: nat := 512

  datatype Event = Activity(id: string) | Idle(id: string) | Deleted(id: string)

  function Without(s: seq<string>, id: string): (r: seq<string>)
    ensures forall x :: x in r <==> x in s && x != id
  {
    if s == [] then []
    else
      var front := Without(s[..|s| - 1], id);
      if s[|s| - 1] == id then front else front + [s[|s| - 1]]
  }

  /** Keep the `n` most recent. */
  function Newest(s: seq<string>, n: nat): seq<string> {
    if |s| <= n then s else s[|s| - n..]
  }

  function Step(active: seq<string>, e: Event): seq<string> {
    match e
    case Activity(id) =>
      if id == "" then active else Newest(Without(active, id) + [id], MAX_ACTIVE_SESSIONS)
    case Idle(id) => Without(active, id)
    case Deleted(id) => Without(active, id)
  }

  class ActiveSessions {
    var active: seq<string>

    ghost predicate Valid()
      reads this
    {
      Distinct(active) && |active| <= MAX_ACTIVE_SESSIONS
    }

    constructor ()
      ensures Valid() && active == []
    {
      active := [];
    }

    /** Re-insert to refresh recency, then evict oldest-first down to the cap. */
    method NoteSessionActivity(id: string) returns (evicted: seq<string>)
      requires Valid()
      modifies this
      ensures Valid() && active == Step(old(active), Activity(id))
      ensures id != "" ==> evicted + active == Without(old(active), id) + [id]
      ensures id == "" ==> evicted == []
    {
      evicted := [];
      if id == "" {
        return;
      }
      PushDistinct(active, id);
      ghost var full := Without(active, id) + [id];
      active := Without(active, id);
      active := active + [id];
      while |active| > MAX_ACTIVE_SESSIONS
        invariant evicted + active == full
        invariant evicted == [] || |active| >= MAX_ACTIVE_SESSIONS
      {
        evicted := evicted + [active[0]];
        active := active[1..];
      }
      SuffixDistinct(evicted, active);
    }

    method ForgetSession(id: string)
      requires Valid()
      modifies this
      ensures Valid() && active == Step(old(active), Deleted(id))
    {
      WithoutDistinct(active, id);
      active := Without(active, id);
    }

    /** Consume the mark: only a session seen working may notify, once. */
    method SessionIdle(id: string) returns (notify: bool)
      requires Valid()
      modifies this
      ensures Valid() && active == Step(old(active), Idle(id))
      ensures notify <==> id in old(active)
    {
      WithoutDistinct(active, id);
      notify := id in active;
      active := Without(active, id);
    }
  }

  lemma {:induction false} WithoutDistinct(s: seq<string>, id: string)
    requires Distinct(s)
    ensures Distinct(Without(s, id)) && |Without(s, id)| <= |s|
  {
    if s != [] {
      var front := s[..|s| - 1];
      WithoutDistinct(front, id);
      var r := Without(front, id);
      forall i | 0 <= i < |r| ensures r[i] != s[|s| - 1] {
        assert r[i] in r && r[i] in front;
      }
    }
  }

  lemma SuffixDistinct(a: seq<string>, b: seq<string>)
    requires Distinct(a + b)
    ensures Distinct(b)
  {
    assert forall i :: 0 <= i < |b| ==> b[i] == (a + b)[|a| + i];
  }

  lemma PushDistinct(s: seq<string>, id: string)
    requires Distinct(s)
    ensures Distinct(Without(s, id) + [id])
  {
    WithoutDistinct(s, id);
    var full := Without(s, id) + [id];
    forall i | 0 <= i < |full| - 1 ensures full[i] != id { assert full[i] in Without(s, id); }
  }

  // ── runs ───────────────────────────────────────────────────────────────────

  function After(trace: seq<Event>): seq<string> {
    if trace == [] then [] else Step(After(trace[..|trace| - 1]), trace[|trace| - 1])
  }

  /** When `id` was last active: one past the position of its latest activity, 0 for never. */
  function LastActive(trace: seq<Event>, id: string): nat {
    if trace == [] then 0
    else if trace[|trace| - 1] == Activity(id) then |trace|
    else LastActive(trace[..|trace| - 1], id)
  }

  ghost predicate ByRecency(trace: seq<Event>, active: seq<string>) {
    && (forall i, j :: 0 <= i < j < |active| ==> LastActive(trace, active[i]) < LastActive(trace, active[j]))
    && (forall i :: 0 <= i < |active| ==> active[i] != "" && 0 < LastActive(trace, active[i]) <= |trace|)
  }

  lemma {:induction false} WithoutByRecency(trace: seq<Event>, active: seq<string>, id: string)
    requires ByRecency(trace, active)
    ensures ByRecency(trace, Without(active, id))
  {
    if active != [] {
      var n := |active| - 1;
      assert ByRecency(trace, active[..n]);
      WithoutByRecency(trace, active[..n], id);
      var r := Without(active[..n], id);
      forall i | 0 <= i < |r| ensures LastActive(trace, r[i]) < LastActive(trace, active[n]) {
        assert r[i] in r;
        var k :| 0 <= k < n && active[..n][k] == r[i];
      }
    }
  }

  /** Activity moves its session to the end and leaves the others' order alone. */
  lemma PushByRecency(trace: seq<Event>, active: seq<string>, id: string)
    requires ByRecency(trace, active) && id != ""
    ensures ByRecency(trace + [Activity(id)], Without(active, id) + [id])
  {
    var trace' := trace + [Activity(id)];
    assert trace'[..|trace|] == trace;
    WithoutByRecency(trace, active, id);
    var kept := Without(active, id);
    forall i | 0 <= i < |kept| ensures LastActive(trace', kept[i]) == LastActive(trace, kept[i]) {
      assert kept[i] in kept;
    }
  }

  lemma OthersByRecency(trace: seq<Event>, e: Event, active: seq<string>)
    requires ByRecency(trace, active) && (e.Activity? ==> e.id == "")
    ensures ByRecency(trace + [e], active)
  {
    assert (trace + [e])[..|trace|] == trace;
    assert forall i :: 0 <= i < |active| ==> LastActive(trace + [e], active[i]) == LastActive(trace, active[i]);
  }

  /** The list is exactly ordered by last activity, has no duplicates and never exceeds the cap. */
  lemma {:induction false} RecencyList(trace: seq<Event>)
    ensures ByRecency(trace, After(trace))
    ensures Distinct(After(trace)) && |After(trace)| <= MAX_ACTIVE_SESSIONS
  {
    if trace != [] {
      var n := |trace| - 1;
      var front, e := trace[..n], trace[n];
      assert trace == front + [e];
      RecencyList(front);
      WithoutDistinct(After(front), e.id);
      if e.Activity? && e.id != "" {
        PushByRecency(front, After(front), e.id);
        PushDistinct(After(front), e.id);
      } else {
        WithoutByRecency(front, After(front), e.id);
        OthersByRecency(front, e, After(front));
        OthersByRecency(front, e, Without(After(front), e.id));
      }
    }
  }

  /** Every one of `others` has been active since `id` last was. */
  ghost predicate AllLater(trace: seq<Event>, id: string, others: set<string>) {
    forall o :: o in others ==> LastActive(trace, id) < LastActive(trace, o)
  }

  /**
   Eviction only reaches orphans: a session that another one's activity pushes
   out has had at least 512 other sessions active since its own last activity.
   */
  lemma EvictedOnlyAsOrphan(trace: seq<Event>, newer: string, id: string)
    requires id in After(trace) && newer != id && id !in After(trace + [Activity(newer)])
    ensures var others := Elements(After(trace + [Activity(newer)]));
      |others| == MAX_ACTIVE_SESSIONS && AllLater(trace + [Activity(newer)], id, others)
  {
    var trace' := trace + [Activity(newer)];
    assert trace'[..|trace|] == trace;
    RecencyList(trace);
    RecencyList(trace');
    var full := Without(After(trace), newer) + [newer];
    assert newer != "" && id in full;
    PushByRecency(trace, After(trace), newer);
    DistinctSize(After(trace'));
    PushedOut(trace', full, id);
  }

  /** What falls off the front of the list was active before all that stays. */
  lemma PushedOut(trace: seq<Event>, full: seq<string>, id: string)
    requires ByRecency(trace, full) && id in full && id !in Newest(full, MAX_ACTIVE_SESSIONS)
    ensures |Newest(full, MAX_ACTIVE_SESSIONS)| == MAX_ACTIVE_SESSIONS
    ensures forall o :: o in Newest(full, MAX_ACTIVE_SESSIONS) ==> LastActive(trace, id) < LastActive(trace, o)
  {
    var kept := Newest(full, MAX_ACTIVE_SESSIONS);
    var cut := |full| - |kept|;
    var p :| 0 <= p < |full| && full[p] == id;
    forall q | cut <= q < |full| ensures full[q] in kept { assert kept[q - cut] == full[q]; }
    forall o | o in kept ensures LastActive(trace, id) < LastActive(trace, o) {
      var q :| 0 <= q < |kept| && kept[q] == o;
      assert full[q + cut] == o && p < q + cut;
    }
  }

  // ── wakes against activity ─────────────────────────────────────────────────

  function Wakes(trace: seq<Event>, id: string): nat {
    if trace == [] then 0
    else
      var n := |trace| - 1;
      Wakes(trace[..n], id) + if trace[n] == Idle(id) && id in After(trace[..n]) then 1 else 0
  }

  function Marks(trace: seq<Event>, id: string): nat {
    if trace == [] then 0
    else Marks(trace[..|trace| - 1], id) + if trace[|trace| - 1] == Activity(id) then 1 else 0
  }

  /** Each wake is paid for by activity of its own session: a replayed idle never notifies. */
  lemma {:induction false} WakesPaidFor(trace: seq<Event>, id: string)
    ensures Wakes(trace, id) + (if id in After(trace) then 1 else 0) <= Marks(trace, id)
  {
    if trace != [] {
      var n := |trace| - 1;
      WakesPaidFor(trace[..n], id);
      StepMembers(After(trace[..n]), trace[n], id);
    }
  }

  lemma StepMembers(active: seq<string>, e: Event, id: string)
    ensures id in Step(active, e) ==> id in active || e == Activity(id)
    ensures e == Idle(id) || e == Deleted(id) ==> id !in Step(active, e)
  {
  }

  /** Between two notifying idles of one session it was active again. */
  lemma {:induction false} ActiveBetweenWakes(trace: seq<Event>, i: nat, j: nat) returns (k: nat)
    requires i < j < |trace| && trace[i].Idle? && trace[i].id in After(trace[..j])
    ensures i < k < j && trace[k] == Activity(trace[i].id)
    decreases j
  {
    var id := trace[i].id;
    assert trace[..j][..j - 1] == trace[..j - 1];
    StepMembers(After(trace[..j - 1]), trace[j - 1], id);
    if trace[j - 1] == Activity(id) {
      k := j - 1;
    } else {
      k := ActiveBetweenWakes(trace, i, j - 1);
    }
  }
}
