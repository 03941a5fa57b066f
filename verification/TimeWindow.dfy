/** Lists of timestamps cut at a moving cutoff: what the limiter and the aggregation windows have in common. */
module TimeWindow {

  /** `open` keeps t > cutoff, otherwise t >= cutoff. */
  predicate Inside(t: real, cutoff: real, open: bool) {
    t > cutoff || (!open && t == cutoff)
  }

  function Since(ts: seq<real>, cutoff: real, open: bool): (r: seq<real>)
    ensures |r| <= |ts|
  {
    if ts == [] then []
    else (if Inside(ts[0], cutoff, open) then [ts[0]] else []) + Since(ts[1..], cutoff, open)
  }

  ghost predicate Ascending(ts: seq<real>) {
    forall i, j :: 0 <= i < j < |ts| ==> ts[i] <= ts[j]
  }

  ghost predicate UpTo(ts: seq<real>, clock: real) {
    forall i :: 0 <= i < |ts| ==> ts[i] <= clock
  }

  lemma SinceCons(a: seq<real>, c: real, open: bool)
    requires a != []
    ensures Since(a, c, open) == (if Inside(a[0], c, open) then [a[0]] else []) + Since(a[1..], c, open)
  {}

  lemma Regroup(h: seq<real>, x: seq<real>, y: seq<real>)
    ensures h + (x + y) == (h + x) + y
  {}

  lemma {:induction false} SinceAppend(a: seq<real>, b: seq<real>, c: real, open: bool)
    ensures Since(a + b, c, open) == Since(a, c, open) + Since(b, c, open)
  {
    if a == [] {
      assert a + b == b;
    } else {
      var h := if Inside(a[0], c, open) then [a[0]] else [];
      SinceAppend(a[1..], b, c, open);
      SinceCons(a, c, open);
      SinceCons(a + b, c, open);
      assert (a + b)[1..] == a[1..] + b;
      Regroup(h, Since(a[1..], c, open), Since(b, c, open));
    }
  }

  /** Pruning at an earlier cutoff does not change what a later cutoff keeps. */
  lemma {:induction false} SinceTwice(a: seq<real>, c: real, d: real, open: bool)
    requires c <= d
    ensures Since(Since(a, c, open), d, open) == Since(a, d, open)
  {
    if a != [] {
      SinceTwice(a[1..], c, d, open);
      SinceAppend(if Inside(a[0], c, open) then [a[0]] else [], Since(a[1..], c, open), d, open);
      assert Since([a[0]], d, open) == if Inside(a[0], d, open) then [a[0]] else [];
    }
  }

  lemma {:induction false} SinceOfOld(ts: seq<real>, c: real, open: bool)
    requires forall i :: 0 <= i < |ts| ==> !Inside(ts[i], c, open)
    ensures Since(ts, c, open) == []
  {
    if ts != [] { SinceOfOld(ts[1..], c, open); }
  }

  lemma {:induction false} SinceMembers(ts: seq<real>, c: real, open: bool)
    ensures forall x :: x in Since(ts, c, open) <==> x in ts && Inside(x, c, open)
    ensures Ascending(ts) ==> Ascending(Since(ts, c, open))
  {
    if ts != [] {
      SinceMembers(ts[1..], c, open);
      assert ts == [ts[0]] + ts[1..];
      var tail := Since(ts[1..], c, open);
      if Ascending(ts) {
        forall j | 0 <= j < |tail|
          ensures ts[0] <= tail[j]
        {
          assert tail[j] in tail;
          var k :| 0 <= k < |ts[1..]| && ts[1..][k] == tail[j];
          assert ts[k + 1] == tail[j];
        }
      }
    }
  }

  lemma SinceKeeps(ts: seq<real>, c: real, open: bool, clock: real)
    requires Ascending(ts) && UpTo(ts, clock)
    ensures Ascending(Since(ts, c, open)) && UpTo(Since(ts, c, open), clock)
  {
    var r := Since(ts, c, open);
    SinceMembers(ts, c, open);
    forall i | 0 <= i < |r|
      ensures r[i] <= clock
    {
      assert r[i] in r;
    }
  }

  /** Dropping from the front while the head is too old. */
  function DropFront(ts: seq<real>, c: real): (r: seq<real>)
    ensures |r| <= |ts|
  {
    if ts != [] && ts[0] < c then DropFront(ts[1..], c) else ts
  }

  /** On an ascending list this is exactly the filter. */
  lemma {:induction false} DropFrontIsSince(ts: seq<real>, c: real)
    requires Ascending(ts)
    ensures DropFront(ts, c) == Since(ts, c, false)
  {
    if ts != [] {
      DropFrontIsSince(ts[1..], c);
      if ts[0] >= c && |ts| > 1 {
        assert ts[1..][0] == ts[1];
      }
      assert ts == [ts[0]] + ts[1..];
    }
  }
}
