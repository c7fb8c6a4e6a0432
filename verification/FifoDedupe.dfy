/**
 The in-memory replay window used when no store is configured: a set for lookup
 and a bounded queue for eviction.
 */
module FifoDedupe {
  import opened Prelude

  /** Admissions: ids answered "not seen", in order. A run with window size `max` appends one per new id. */
  function Recent(admitted: seq<string>, max: nat): seq<string> {
    if |admitted| <= max then admitted else admitted[|admitted| - max..]
  }

  function AdmittedBy(ids: seq<string>, max: nat): seq<string> {
    if ids == [] then []
    else
      var before := AdmittedBy(ids[..|ids| - 1], max);
      var id := ids[|ids| - 1];
      if id in Recent(before, max) then before else before + [id]
  }

  class Dedupe {
    const max: nat
    var seen: set<string>
    var order: seq<string>
    ghost var checked: seq<string>

    /** The set is exactly the queue's elements; the queue is the last `max` admitted ids, each once. */
    ghost predicate Valid()
      reads this
    {
      && max >= 1
      && order == Recent(AdmittedBy(checked, max), max)
      && |order| <= max
      && Distinct(order)
      && seen == Elements(order)
    }

    constructor (max: nat)
      requires max >= 1
      ensures Valid() && this.max == max && checked == []
    {
      this.max, seen, order, checked := max, {}, [], [];
    }

    /** Answers true exactly for an id among the last `max` admitted ones. */
    method Check(id: string) returns (duplicate: bool)
      requires Valid()
      modifies this
      ensures Valid() && checked == old(checked) + [id]
      ensures duplicate <==> id in Recent(AdmittedBy(old(checked), max), max)
    {
      ghost var admitted := AdmittedBy(checked, max);
      assert (checked + [id])[..|checked|] == checked;
      duplicate := id in seen;
      checked := checked + [id];
      if duplicate {
        return;
      }
      RecentOneMore(admitted, max, id);
      Slide(order, if |order| == max then 1 else 0, id);
      if |order| == max {
        seen := seen - {order[0]};
        order := order[1..];
      }
      order := order + [id];
      seen := seen + {id};
    }
  }

  /** Dropping `n <= 1` oldest ids and appending a new one keeps the window duplicate-free. */
  lemma Slide(order: seq<string>, n: nat, id: string)
    requires Distinct(order) && id !in order && n <= 1 && n <= |order|
    ensures Distinct(order[n..] + [id])
    ensures Elements(order[n..] + [id]) == Elements(order) - (if n == 1 then {order[0]} else {}) + {id}
  {
    if n == 1 {
      assert order == [order[0]] + order[1..];
    }
  }

  /** Admitting one id to a full window drops its oldest. */
  lemma RecentOneMore(admitted: seq<string>, max: nat, id: string)
    requires max >= 1
    ensures var window := Recent(admitted, max);
      Recent(admitted + [id], max) == (if |window| == max then window[1..] else window) + [id]
  {
  }

  /** An id is admitted again only after `max` other admissions have pushed it out. */
  lemma {:induction false} ReadmittedAfterMax(ids: seq<string>, max: nat, i: nat, j: nat)
    requires max >= 1 && i < j < |AdmittedBy(ids, max)|
    requires AdmittedBy(ids, max)[i] == AdmittedBy(ids, max)[j]
    ensures j - i > max
    decreases |ids|
  {
    var front := ids[..|ids| - 1];
    var before := AdmittedBy(front, max);
    if j < |before| {
      ReadmittedAfterMax(front, max, i, j);
    } else {
      if |before| - i <= max { OldInWindow(before, max, i); }
    }
  }

  /** The last `max` admissions are in the window. */
  lemma OldInWindow(admitted: seq<string>, max: nat, i: nat)
    requires i < |admitted| && |admitted| - i <= max
    ensures admitted[i] in Recent(admitted, max)
  {
    var window := Recent(admitted, max);
    assert window[i - (|admitted| - |window|)] == admitted[i];
  }
}
