/** The audit status cache: an ordered map that, when full, gives up finished entries before in-flight ones. */
module AuditStatus {
  import opened Common

  /** `inflight` is a status of pending or running. */
  datatype Entry = Entry(id: nat, inflight: bool)

  ghost predicate Distinct(es: seq<Entry>) {
    forall i, j :: 0 <= i < j < |es| ==> es[i].id != es[j].id
  }

  function Position(es: seq<Entry>, id: nat): (p: nat)
    ensures p <= |es|
    ensures p < |es| ==> es[p].id == id
    ensures forall i :: 0 <= i < p ==> es[i].id != id
  {
    if es == [] || es[0].id == id then 0 else 1 + Position(es[1..], id)
  }

  /** The oldest finished entry, or the length when all are in flight. */
  function FirstFinished(es: seq<Entry>): (p: nat)
    ensures p <= |es|
    ensures p < |es| ==> !es[p].inflight
    ensures forall i :: 0 <= i < p ==> es[i].inflight
  {
    if es == [] || !es[0].inflight then 0 else 1 + FirstFinished(es[1..])
  }

  lemma FirstFinishedAt(es: seq<Entry>, p: nat)
    requires p <= |es| && (p < |es| ==> !es[p].inflight)
    requires forall i :: 0 <= i < p ==> es[i].inflight
    ensures FirstFinished(es) == p
  {}

  function RemoveAt(es: seq<Entry>, p: nat): (r: seq<Entry>) {
    if p < |es| then es[..p] + es[p + 1..] else es
  }

  function Evict(es: seq<Entry>, max: nat): (r: seq<Entry>)
    ensures |r| == Min(|es|, max)
    decreases |es|
  {
    if |es| <= max then es
    else
      var p := FirstFinished(es);
      Evict(RemoveAt(es, if p < |es| then p else 0), max)
  }

  function Track(es: seq<Entry>, e: Entry, max: nat): seq<Entry> {
    Evict(RemoveAt(es, Position(es, e.id)) + [e], max)
  }

  function Run(ops: seq<Entry>, max: nat): seq<Entry> {
    if ops == [] then [] else Track(Run(ops[..|ops| - 1], max), ops[|ops| - 1], max)
  }

  /** The ids whose last reported status is pending or running. */
  function InFlight(ops: seq<Entry>): set<nat> {
    if ops == [] then {}
    else
      var e := ops[|ops| - 1];
      if e.inflight then InFlight(ops[..|ops| - 1]) + {e.id} else InFlight(ops[..|ops| - 1]) - {e.id}
  }

  // ---------- what the cache holds ----------

  /** Distinct ids, each with its last reported status. */
  ghost predicate Current(es: seq<Entry>, busy: set<nat>) {
    Distinct(es) && forall i :: 0 <= i < |es| ==> (es[i].inflight <==> es[i].id in busy)
  }

  ghost predicate Holds(es: seq<Entry>, id: nat) { exists i :: 0 <= i < |es| && es[i].id == id }

  lemma RemoveKeeps(es: seq<Entry>, p: nat, busy: set<nat>)
    requires Current(es, busy)
    ensures Current(RemoveAt(es, p), busy)
    ensures forall id :: Holds(es, id) && !(p < |es| && es[p].id == id) ==> Holds(RemoveAt(es, p), id)
  {
    var r := RemoveAt(es, p);
    if p < |es| {
      forall id | Holds(es, id) && es[p].id != id
        ensures Holds(r, id)
      {
        var i :| 0 <= i < |es| && es[i].id == id;
        assert r[if i < p then i else i - 1].id == id;
      }
    }
  }

  lemma {:induction false} DistinctInside(es: seq<Entry>, s: set<nat>)
    requires Distinct(es) && forall i :: 0 <= i < |es| ==> es[i].id in s
    ensures |es| <= |s|
  {
    if es != [] {
      var n := |es| - 1;
      forall i | 0 <= i < n
        ensures es[..n][i].id in s - {es[n].id}
      {
        assert es[i].id != es[n].id;
      }
      DistinctInside(es[..n], s - {es[n].id});
    }
  }

  /** Evicting down to `max` entries gives up no in-flight one while at most `max` are in flight. */
  lemma {:induction false} EvictKeeps(es: seq<Entry>, max: nat, busy: set<nat>)
    requires Current(es, busy)
    ensures Current(Evict(es, max), busy)
    ensures |busy| <= max ==> forall id :: id in busy && Holds(es, id) ==> Holds(Evict(es, max), id)
    decreases |es|
  {
    if |es| > max {
      var p := FirstFinished(es);
      var q: nat := if p < |es| then p else 0;
      RemoveKeeps(es, q, busy);
      EvictKeeps(RemoveAt(es, q), max, busy);
      if |busy| <= max {
        if p == |es| {
          DistinctInside(es, busy);
        }
      }
    }
  }

  lemma TrackKeeps(es: seq<Entry>, e: Entry, max: nat, busy: set<nat>)
    requires Current(es, busy)
    ensures var after := if e.inflight then busy + {e.id} else busy - {e.id};
            && Current(Track(es, e, max), after)
            && (|after| <= max && (forall id :: id in busy ==> Holds(es, id))
                ==> forall id :: id in after ==> Holds(Track(es, e, max), id))
  {
    var after := if e.inflight then busy + {e.id} else busy - {e.id};
    var p := Position(es, e.id);
    RemoveKeeps(es, p, busy);
    var rest := RemoveAt(es, p);
    var all := rest + [e];
    RemovedIsGone(es, e.id);
    assert Current(all, after);
    forall id | Holds(rest, id) || id == e.id
      ensures Holds(all, id)
    {
      if id == e.id {
        assert all[|rest|].id == id;
      } else {
        var i :| 0 <= i < |rest| && rest[i].id == id;
        assert all[i].id == id;
      }
    }
    EvictKeeps(all, max, after);
  }

  lemma RemovedIsGone(es: seq<Entry>, id: nat)
    requires Distinct(es)
    ensures forall i :: 0 <= i < |RemoveAt(es, Position(es, id))| ==> RemoveAt(es, Position(es, id))[i].id != id
  {}

  lemma {:induction false} RunIsCurrent(ops: seq<Entry>, max: nat)
    ensures Current(Run(ops, max), InFlight(ops)) && |Run(ops, max)| <= max
  {
    if ops != [] {
      RunIsCurrent(ops[..|ops| - 1], max);
      TrackKeeps(Run(ops[..|ops| - 1], max), ops[|ops| - 1], max, InFlight(ops[..|ops| - 1]));
    }
  }

  /** As long as no more than `max` audits were ever in flight at once, every one in flight is still visible. */
  lemma {:induction false} InFlightVisible(ops: seq<Entry>, max: nat)
    requires forall n :: 0 <= n <= |ops| ==> |InFlight(ops[..n])| <= max
    ensures forall id :: id in InFlight(ops) ==> Holds(Run(ops, max), id)
  {
    if ops != [] {
      var m := |ops| - 1;
      forall n | 0 <= n <= m
        ensures |InFlight(ops[..m][..n])| <= max
      {
        assert ops[..m][..n] == ops[..n];
      }
      InFlightVisible(ops[..m], max);
      RunIsCurrent(ops[..m], max);
      assert ops[..|ops|] == ops;
      TrackKeeps(Run(ops[..m], max), ops[m], max, InFlight(ops[..m]));
    }
  }

  /** One report: the id's old entry goes, the new one is the newest, and if that is one too many, the oldest finished
      entry goes, or the oldest of all when none is finished. */
  lemma TrackIs(es: seq<Entry>, e: Entry, max: nat)
    requires |es| <= max
    ensures var p := Position(es, e.id);
            var all := (if p < |es| then es[..p] + es[p + 1..] else es) + [e];
            var q := FirstFinished(all);
            Track(es, e, max) == if |all| <= max then all
                                 else if q < |all| then all[..q] + all[q + 1..] else all[1..]
  {
    var all := RemoveAt(es, Position(es, e.id)) + [e];
    if |all| > max {
      var q := FirstFinished(all);
      var r := RemoveAt(all, if q < |all| then q else 0);
      assert |r| <= max && Evict(r, max) == r;
      assert q == |all| ==> r == all[1..];
    }
  }

  /** A finished report for a new id is itself the one given up when the cache is full of in-flight entries. */
  lemma FinishedNewcomerDropped(es: seq<Entry>, id: nat, max: nat)
    requires |es| == max && FirstFinished(es) == |es| && Position(es, id) == |es|
    ensures Track(es, Entry(id, false), max) == es
  {
    var all := es + [Entry(id, false)];
    FirstFinishedAt(all, |es|);
    assert RemoveAt(all, |es|) == es;
    assert Evict(all, max) == Evict(es, max) == es;
  }

  class AuditStatusCache {
    const max: nat
    var entries: seq<Entry>

    constructor (max: nat)
      ensures this.max == max && entries == []
    {
      this.max := max;
      entries := [];
    }

    method TrackAuditStatus(id: nat, inflight: bool)
      modifies this
      ensures entries == Track(old(entries), Entry(id, inflight), max)
    {
      var p := Position(entries, id);
      entries := RemoveAt(entries, p) + [Entry(id, inflight)];
      ghost var all := entries;
      while |entries| > max
        invariant Evict(entries, max) == Evict(all, max)
      {
        var dropped, k := false, 0;
        while k < |entries| && entries[k].inflight
          invariant 0 <= k <= |entries|
          invariant forall i :: 0 <= i < k ==> entries[i].inflight
        {
          k := k + 1;
        }
        dropped := k < |entries|;
        FirstFinishedAt(entries, k);
        entries := if dropped then RemoveAt(entries, k) else entries[1..];
      }
    }
  }
}
