/** Deduplication of attack chains: longest first, a chain is kept when it brings an event no kept chain has. */
module ChainDedup {

  datatype Chain = Chain(name: string, ids: seq<nat>)

  function Ids(c: Chain): set<nat> { set id | id in c.ids }

  // ---------- the sort: by length, longest first, equal lengths in their old order ----------

  function Insert(s: seq<Chain>, c: Chain): seq<Chain> {
    if s == [] || |s[0].ids| < |c.ids| then [c] + s else [s[0]] + Insert(s[1..], c)
  }

  function SortDesc(cs: seq<Chain>): seq<Chain> {
    if cs == [] then [] else Insert(SortDesc(cs[..|cs| - 1]), cs[|cs| - 1])
  }

  ghost predicate Descending(s: seq<Chain>) {
    forall i, j :: 0 <= i < j < |s| ==> |s[i].ids| >= |s[j].ids|
  }

  function OfLength(cs: seq<Chain>, n: nat): seq<Chain> {
    if cs == [] then [] else (if |cs[0].ids| == n then [cs[0]] else []) + OfLength(cs[1..], n)
  }

  lemma {:induction false} OfLengthSnoc(cs: seq<Chain>, c: Chain, n: nat)
    ensures OfLength(cs + [c], n) == OfLength(cs, n) + (if |c.ids| == n then [c] else [])
  {
    if cs == [] {
      assert cs + [c] == [c];
    } else {
      OfLengthSnoc(cs[1..], c, n);
      assert (cs + [c])[1..] == cs[1..] + [c];
    }
  }

  lemma {:induction false} OfLengthNone(cs: seq<Chain>, n: nat)
    requires forall i :: 0 <= i < |cs| ==> |cs[i].ids| < n
    ensures OfLength(cs, n) == []
  {
    if cs != [] { OfLengthNone(cs[1..], n); }
  }

  lemma {:induction false} InsertMembers(s: seq<Chain>, c: Chain)
    ensures forall x :: x in Insert(s, c) <==> x in s || x == c
  {
    if s != [] && |s[0].ids| >= |c.ids| {
      InsertMembers(s[1..], c);
      assert s == [s[0]] + s[1..];
    }
  }

  lemma {:induction false} InsertDescends(s: seq<Chain>, c: Chain)
    requires Descending(s)
    ensures Descending(Insert(s, c))
  {
    if s != [] && |s[0].ids| >= |c.ids| {
      InsertDescends(s[1..], c);
      InsertMembers(s[1..], c);
      var t := Insert(s[1..], c);
      forall j | 0 <= j < |t|
        ensures |s[0].ids| >= |t[j].ids|
      {
        assert t[j] in t;
        assert t[j] != c ==> t[j] in s[1..];
      }
    }
  }

  lemma {:induction false} InsertStable(s: seq<Chain>, c: Chain, n: nat)
    requires Descending(s)
    ensures OfLength(Insert(s, c), n) == OfLength(s, n) + (if |c.ids| == n then [c] else [])
  {
    if s == [] || |s[0].ids| < |c.ids| {
      assert ([c] + s)[1..] == s;
      if |c.ids| == n { OfLengthNone(s, n); }
    } else {
      InsertStable(s[1..], c, n);
      assert ([s[0]] + Insert(s[1..], c))[1..] == Insert(s[1..], c);
    }
  }

  /** The sort is a stable permutation into descending length. */
  lemma {:induction false} SortIsStable(cs: seq<Chain>, n: nat)
    ensures Descending(SortDesc(cs))
    ensures OfLength(SortDesc(cs), n) == OfLength(cs, n)
    ensures forall x :: x in SortDesc(cs) <==> x in cs
  {
    if cs != [] {
      var k := |cs| - 1;
      SortIsStable(cs[..k], n);
      InsertDescends(SortDesc(cs[..k]), cs[k]);
      InsertStable(SortDesc(cs[..k]), cs[k], n);
      InsertMembers(SortDesc(cs[..k]), cs[k]);
      OfLengthSnoc(cs[..k], cs[k], n);
      assert cs == cs[..k] + [cs[k]];
    }
  }

  // ---------- what is kept ----------

  function Union(cs: seq<Chain>): set<nat> {
    if cs == [] then {} else Union(cs[..|cs| - 1]) + Ids(cs[|cs| - 1])
  }

  /** The chains of a sequence that bring an event none kept before them has. */
  function Fresh(cs: seq<Chain>): seq<Chain> {
    if cs == [] then []
    else
      var kept, c := Fresh(cs[..|cs| - 1]), cs[|cs| - 1];
      if Ids(c) - Union(kept) != {} then kept + [c] else kept
  }

  function Dedup(cs: seq<Chain>): seq<Chain> { Fresh(SortDesc(cs)) }

  lemma UnionSnoc(cs: seq<Chain>, c: Chain)
    ensures Union(cs + [c]) == Union(cs) + Ids(c)
  {
    assert (cs + [c])[..|cs|] == cs;
  }

  lemma {:induction false} UnionMembers(cs: seq<Chain>)
    ensures forall id :: id in Union(cs) <==> exists c :: c in cs && id in c.ids
  {
    if cs != [] {
      var k := |cs| - 1;
      UnionMembers(cs[..k]);
      assert cs == cs[..k] + [cs[k]];
    }
  }

  /** Each chain adds an event that none before it has. */
  ghost predicate AddsNew(kept: seq<Chain>) {
    kept == [] || (AddsNew(kept[..|kept| - 1]) && Ids(kept[|kept| - 1]) - Union(kept[..|kept| - 1]) != {})
  }

  lemma {:induction false} FreshSubset(cs: seq<Chain>)
    ensures forall x :: x in Fresh(cs) ==> x in cs
  {
    if cs != [] {
      FreshSubset(cs[..|cs| - 1]);
      assert cs == cs[..|cs| - 1] + [cs[|cs| - 1]];
    }
  }

  lemma {:induction false} FreshKeepsUnion(cs: seq<Chain>)
    ensures Union(Fresh(cs)) == Union(cs)
  {
    if cs != [] {
      var kept, c := Fresh(cs[..|cs| - 1]), cs[|cs| - 1];
      FreshKeepsUnion(cs[..|cs| - 1]);
      UnionSnoc(kept, c);
      if Ids(c) - Union(kept) == {} {
        assert Union(kept) + Ids(c) == Union(kept);
      }
    }
  }

  lemma {:induction false} FreshAddsNew(cs: seq<Chain>)
    ensures AddsNew(Fresh(cs))
  {
    if cs != [] {
      FreshAddsNew(cs[..|cs| - 1]);
      var kept, c := Fresh(cs[..|cs| - 1]), cs[|cs| - 1];
      assert (kept + [c])[..|kept|] == kept;
    }
  }

  lemma {:induction false} FreshOfPrefix(cs: seq<Chain>, i: nat)
    requires i <= |cs|
    ensures |Fresh(cs[..i])| <= |Fresh(cs)| && Fresh(cs[..i]) == Fresh(cs)[..|Fresh(cs[..i])|]
  {
    if i < |cs| {
      assert cs[..|cs| - 1][..i] == cs[..i];
      FreshOfPrefix(cs[..|cs| - 1], i);
    } else {
      assert cs[..i] == cs;
    }
  }

  ghost predicate Covers(kept: seq<Chain>, c: Chain, id: nat) {
    exists k :: k in kept && |k.ids| >= |c.ids| && id in k.ids
  }

  lemma KeptHolds(s: seq<Chain>, i: nat, id: nat) returns (k: Chain)
    requires i < |s| && id in s[i].ids
    ensures k in Fresh(s[..i + 1]) && id in k.ids
  {
    var part := s[..i + 1];
    assert part[i] == s[i];
    assert s[i] in part;
    FreshKeepsUnion(part);
    UnionMembers(part);
    UnionMembers(Fresh(part));
    assert id in Union(part) && id in Union(Fresh(part));
    k :| k in Fresh(part) && id in k.ids;
  }

  /** Each event of a chain is in a kept chain that is at least as long. */
  lemma FreshCovers(s: seq<Chain>, i: nat, id: nat)
    requires Descending(s) && i < |s| && id in s[i].ids
    ensures Covers(Fresh(s), s[i], id)
  {
    var k := KeptHolds(s, i, id);
    LongEnough(s, i, k);
    FreshOfPrefix(s, i + 1);
    var j: nat :| j < |Fresh(s[..i + 1])| && Fresh(s[..i + 1])[j] == k;
    assert Fresh(s)[j] == k;
  }

  lemma LongEnough(s: seq<Chain>, i: nat, k: Chain)
    requires Descending(s) && i < |s| && k in Fresh(s[..i + 1])
    ensures |k.ids| >= |s[i].ids|
  {
    FreshSubset(s[..i + 1]);
    var j: nat :| j < |s[..i + 1]| && s[..i + 1][j] == k;
    assert s[j] == k;
    assert j < i ==> |s[j].ids| >= |s[i].ids|;
  }

  /** Deduplication keeps the union of all events; a dropped chain is covered by kept chains at least as long. */
  lemma DedupCovers(cs: seq<Chain>)
    ensures Union(Dedup(cs)) == Union(cs) && AddsNew(Dedup(cs))
    ensures forall c, id :: c in cs && id in c.ids ==> Covers(Dedup(cs), c, id)
    ensures forall c :: c in Dedup(cs) ==> c in cs
  {
    var s := SortDesc(cs);
    SortIsStable(cs, 0);
    FreshKeepsUnion(s);
    FreshAddsNew(s);
    FreshSubset(s);
    UnionMembers(s);
    UnionMembers(cs);
    assert Union(s) == Union(cs);
    forall c, id | c in cs && id in c.ids
      ensures Covers(Dedup(cs), c, id)
    {
      var i: nat :| i < |s| && s[i] == c;
      FreshCovers(s, i, id);
    }
  }

  /** A chain whose events all occur in a longer chain is dropped. */
  lemma SubsumedDropped(cs: seq<Chain>, c: Chain, d: Chain)
    requires c in cs && d in cs && Ids(c) <= Ids(d) && |c.ids| < |d.ids|
    ensures c !in Dedup(cs)
  {
    var s := SortDesc(cs);
    SortIsStable(cs, 0);
    var j: nat :| j < |s| && s[j] == d;
    NotKeptAfter(s, c, d, j);
  }

  lemma {:induction false} NotKeptAfter(s: seq<Chain>, c: Chain, d: Chain, j: nat)
    requires Descending(s) && j < |s| && s[j] == d && Ids(c) <= Ids(d) && |c.ids| < |d.ids|
    ensures c !in Fresh(s)
  {
    var n := |s| - 1;
    if n == j {
      FreshSubset(s);
      assert forall i :: 0 <= i < |s| ==> |s[i].ids| >= |s[j].ids|;
    } else {
      NotKeptAfter(s[..n], c, d, j);
      FreshKeepsUnion(s[..n]);
      UnionMembers(s[..n]);
      assert s[..n][j] in s[..n];
    }
  }

  lemma {:induction false} FreshFixed(kept: seq<Chain>)
    requires AddsNew(kept)
    ensures Fresh(kept) == kept
  {
    if kept != [] { FreshFixed(kept[..|kept| - 1]); }
  }

  lemma {:induction false} SortFixed(s: seq<Chain>)
    requires Descending(s)
    ensures SortDesc(s) == s
  {
    if s != [] {
      SortFixed(s[..|s| - 1]);
      InsertAtEnd(s[..|s| - 1], s[|s| - 1]);
    }
  }

  lemma {:induction false} InsertAtEnd(s: seq<Chain>, c: Chain)
    requires forall i :: 0 <= i < |s| ==> |s[i].ids| >= |c.ids|
    ensures Insert(s, c) == s + [c]
  {
    if s != [] { InsertAtEnd(s[1..], c); }
  }

  lemma {:induction false} FreshDescends(s: seq<Chain>)
    requires Descending(s)
    ensures Descending(Fresh(s))
  {
    if s != [] {
      var k := |s| - 1;
      FreshDescends(s[..k]);
      FreshSubset(s[..k]);
      var kept := Fresh(s[..k]);
      forall i | 0 <= i < |kept|
        ensures |kept[i].ids| >= |s[k].ids|
      {
        assert kept[i] in kept;
        var j :| 0 <= j < k && s[..k][j] == kept[i];
      }
    }
  }

  /** Deduplicating twice changes nothing more. */
  lemma DedupIdempotent(cs: seq<Chain>)
    ensures Dedup(Dedup(cs)) == Dedup(cs)
  {
    SortIsStable(cs, 0);
    FreshDescends(SortDesc(cs));
    SortFixed(Dedup(cs));
    FreshAddsNew(SortDesc(cs));
    FreshFixed(Dedup(cs));
  }

  lemma FreshStep(s: seq<Chain>, i: nat)
    requires i < |s|
    ensures Fresh(s[..i + 1])
         == if Ids(s[i]) - Union(Fresh(s[..i])) != {} then Fresh(s[..i]) + [s[i]] else Fresh(s[..i])
  {
    assert s[..i + 1][..i] == s[..i];
  }

  method DedupChains(cs: seq<Chain>) returns (kept: seq<Chain>)
    ensures kept == Dedup(cs)
  {
    var s := SortDesc(cs);
    var used: set<nat> := {};
    kept := [];
    for i := 0 to |s|
      invariant kept == Fresh(s[..i]) && used == Union(kept)
    {
      FreshStep(s, i);
      if Ids(s[i]) - used != {} {
        UnionSnoc(kept, s[i]);
        kept := kept + [s[i]];
        used := used + Ids(s[i]);
      }
    }
    assert s[..|s|] == s;
  }
}
