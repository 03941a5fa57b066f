/** Kill-chain matching as the shipped patterns run it: none forbids skipping, and the four that ask for only some of
    their steps have pairwise distinct steps. */
module CorrelationShipped {
  import opened Common
  import opened Correlation

  predicate DistinctSteps(p: Pattern) {
    forall i, j :: 0 <= i < j < |p.steps| ==> p.steps[i] != p.steps[j]
  }

  // ---------- which events the matcher selects ----------

  /** Every event before i that is of a step is of one before step k. */
  ghost predicate AllBefore(p: Pattern, kinds: seq<string>, i: nat, k: nat)
    requires i <= |kinds|
  {
    forall h: nat, j: nat :: h < i && j < |p.steps| && p.steps[j] == kinds[h] ==> j < k
  }

  /** Event i is of a step, behind the steps of all events before it. */
  ghost predicate Advances(p: Pattern, kinds: seq<string>, i: nat) {
    i < |kinds| && exists k: nat :: k < |p.steps| && p.steps[k] == kinds[i] && AllBefore(p, kinds, i, k)
  }

  /** The step an event takes when all steps may be skipped and no two are alike. */
  lemma TakenSkipping(norm: string -> string, p: Pattern, step: nat, kind: string)
    requires p.skipMissing && DistinctSteps(p) && step <= |p.steps|
    ensures Taken(norm, p, step, kind) < |p.steps| <==>
            exists k: nat :: step <= k < |p.steps| && p.steps[k] == kind
    ensures forall k: nat :: step <= k < |p.steps| && p.steps[k] == kind ==> Taken(norm, p, step, kind) == k
  {}

  /** The next step wanted is the one behind all steps seen so far. */
  ghost predicate WantedNext(p: Pattern, kinds: seq<string>, step: nat) {
    && AllBefore(p, kinds, |kinds|, step)
    && (step > 0 ==> step <= |p.steps| && exists h: nat :: h < |kinds| && kinds[h] == p.steps[step - 1])
  }

  lemma AllBeforeMore(p: Pattern, kinds: seq<string>, kind: string, k: nat)
    ensures AllBefore(p, kinds + [kind], |kinds| + 1, k) <==>
            AllBefore(p, kinds, |kinds|, k) && forall j: nat :: j < |p.steps| && p.steps[j] == kind ==> j < k
  {
    var more := kinds + [kind];
    if AllBefore(p, more, |kinds| + 1, k) {
      forall h: nat, j: nat | h < |kinds| && j < |p.steps| && p.steps[j] == kinds[h]
        ensures j < k
      {
        assert more[h] == kinds[h];
      }
      forall j: nat | j < |p.steps| && p.steps[j] == kind
        ensures j < k
      {
        assert more[|kinds|] == kind;
      }
    }
  }

  lemma WantedMore(norm: string -> string, p: Pattern, kinds: seq<string>, kind: string, step: nat)
    requires p.skipMissing && DistinctSteps(p) && step <= |p.steps| && WantedNext(p, kinds, step)
    ensures var j := Taken(norm, p, step, kind);
            WantedNext(p, kinds + [kind], if j < |p.steps| then j + 1 else step)
  {
    var j := Taken(norm, p, step, kind);
    TakenSkipping(norm, p, step, kind);
    var next := if j < |p.steps| then j + 1 else step;
    AllBeforeMore(p, kinds, kind, next);
    if j < |p.steps| {
      assert (kinds + [kind])[|kinds|] == p.steps[next - 1];
    } else if step > 0 {
      var h: nat :| h < |kinds| && kinds[h] == p.steps[step - 1];
      assert (kinds + [kind])[h] == p.steps[step - 1];
    }
  }

  lemma {:induction false} GreedyWanted(norm: string -> string, p: Pattern, kinds: seq<string>)
    requires p.skipMissing && DistinctSteps(p)
    ensures WantedNext(p, kinds, Greedy(norm, p, kinds).step)
  {
    if kinds != [] {
      var n := |kinds| - 1;
      GreedyWanted(norm, p, kinds[..n]);
      WantedMore(norm, p, kinds[..n], kinds[n], Greedy(norm, p, kinds[..n]).step);
      assert kinds[..n] + [kinds[n]] == kinds;
    }
  }

  /** The last event is selected exactly when it advances. */
  lemma LastSelectedIff(norm: string -> string, p: Pattern, kinds: seq<string>)
    requires p.skipMissing && DistinctSteps(p) && kinds != []
    ensures var n := |kinds| - 1;
            Taken(norm, p, Greedy(norm, p, kinds[..n]).step, kinds[n]) < |p.steps| <==> Advances(p, kinds, n)
  {
    var n := |kinds| - 1;
    var step := Greedy(norm, p, kinds[..n]).step;
    GreedyWanted(norm, p, kinds[..n]);
    TakenSkipping(norm, p, step, kinds[n]);
    PrefixBefore(p, kinds, n, n, step);
    if Advances(p, kinds, n) {
      var k: nat :| k < |p.steps| && p.steps[k] == kinds[n] && AllBefore(p, kinds, n, k);
    }
    if k: nat :| step <= k < |p.steps| && p.steps[k] == kinds[n] {
      assert AllBefore(p, kinds, n, k);
    }
  }

  lemma PrefixBefore(p: Pattern, kinds: seq<string>, n: nat, i: nat, k: nat)
    requires i <= n <= |kinds|
    ensures AllBefore(p, kinds[..n], i, k) <==> AllBefore(p, kinds, i, k)
  {
    assert forall h: nat :: h < i ==> kinds[..n][h] == kinds[h];
  }

  lemma PrefixAdvances(p: Pattern, kinds: seq<string>, n: nat, i: nat)
    requires i < n <= |kinds|
    ensures Advances(p, kinds[..n], i) <==> Advances(p, kinds, i)
  {
    forall k: nat
      ensures AllBefore(p, kinds[..n], i, k) <==> AllBefore(p, kinds, i, k)
    {
      PrefixBefore(p, kinds, n, i, k);
    }
    assert kinds[..n][i] == kinds[i];
  }

  /** An event is selected if and only if it is of a step behind the steps of all earlier events that are of a step. */
  lemma {:induction false} SelectedIff(norm: string -> string, p: Pattern, kinds: seq<string>, i: nat)
    requires p.skipMissing && DistinctSteps(p)
    ensures i in Greedy(norm, p, kinds).at <==> Advances(p, kinds, i)
  {
    GreedyMatches(norm, p, kinds);
    if i < |kinds| {
      var n := |kinds| - 1;
      LastSelectedIff(norm, p, kinds);
      GreedyMatches(norm, p, kinds[..n]);
      if i < n {
        SelectedIff(norm, p, kinds[..n], i);
        PrefixAdvances(p, kinds, n, i);
      }
    }
  }

  /** The positions of all advancing events, in order. */
  ghost predicate AllAdvances(p: Pattern, kinds: seq<string>, at: seq<nat>) {
    Ascending(at, |kinds|) && forall i: nat :: i in at <==> Advances(p, kinds, i)
  }

  lemma {:induction false} AscendingUnique(a: seq<nat>, b: seq<nat>, bound: nat)
    requires Ascending(a, bound) && Ascending(b, bound) && forall i: nat :: i in a <==> i in b
    ensures a == b
  {
    assert (a != [] ==> a[0] in b) && (b != [] ==> b[0] in a);
    if a != [] && b != [] {
      var x, y := a[|a| - 1], b[|b| - 1];
      assert x in b && y in a;
      assert x == y;
      var a1, b1 := a[..|a| - 1], b[..|b| - 1];
      WithoutLast(a, bound);
      WithoutLast(b, bound);
      forall i: nat
        ensures i in a1 <==> i in b1
      {
        assert i in a <==> i in b;
      }
      AscendingUnique(a1, b1, bound);
    }
  }

  lemma WithoutLast(a: seq<nat>, bound: nat)
    requires a != [] && Ascending(a, bound)
    ensures Ascending(a[..|a| - 1], bound)
    ensures forall i: nat :: i in a[..|a| - 1] <==> i in a && i != a[|a| - 1]
  {
    var a1 := a[..|a| - 1];
    assert a == a1 + [a[|a| - 1]];
  }

  lemma AllAdvancesIs(norm: string -> string, p: Pattern, kinds: seq<string>, at: seq<nat>)
    requires p.skipMissing && DistinctSteps(p)
    ensures AllAdvances(p, kinds, at) <==> at == Greedy(norm, p, kinds).at
  {
    var m := Greedy(norm, p, kinds);
    GreedyMatches(norm, p, kinds);
    forall i: nat
      ensures i in m.at <==> Advances(p, kinds, i)
    {
      SelectedIff(norm, p, kinds, i);
    }
    if AllAdvances(p, kinds, at) {
      AscendingUnique(at, m.at, |kinds|);
    }
  }

  // ---------- when a chain is reported ----------

  /** A chain is reported exactly when the advancing events are enough, are not none, and have no gap over the limit. */
  lemma ReportsIff(norm: string -> string, p: Pattern, events: seq<Event>, at: seq<nat>)
    requires p.skipMissing && DistinctSteps(p) && AllAdvances(p, KindsOf(norm, events), at)
    ensures Match(norm, p, events).Chain? <==>
            |at| >= Needed(p) && |at| > 0 && GapsOk(PickEvents(events, at), p.maxGap)
  {
    AllAdvancesIs(norm, p, KindsOf(norm, events), at);
    AscendingFits(at, |events|);
  }

  /** Enough events in the order of their steps, any steps left out, with every gap within the limit. */
  ghost predicate TightOrdered(norm: string -> string, p: Pattern, events: seq<Event>, at: seq<nat>, on: seq<nat>) {
    && |at| == |on| && Ascending(at, |events|) && Ascending(on, |p.steps|)
    && (forall k :: 0 <= k < |at| ==> KindsOf(norm, events)[at[k]] == p.steps[on[k]])
    && |at| >= Needed(p) && |at| > 0 && GapsOk(PickEvents(events, at), p.maxGap)
  }

  /** What the matcher is documented to find is there: it reports nothing exactly when the advancing events are too few
      or have a gap over the limit. */
  lemma TightHiddenIff(norm: string -> string, p: Pattern, events: seq<Event>, at: seq<nat>, on: seq<nat>,
                       advancing: seq<nat>)
    requires p.skipMissing && DistinctSteps(p) && TightOrdered(norm, p, events, at, on)
    requires AllAdvances(p, KindsOf(norm, events), advancing)
    ensures !Match(norm, p, events).Chain? <==>
            |advancing| < Needed(p) || !GapsOk(PickEvents(events, advancing), p.maxGap)
  {
    ReportsIff(norm, p, events, advancing);
    var kinds := KindsOf(norm, events);
    if advancing == [] {
      FirstStepAdvances(p, kinds, at[0], on[0]);
    }
  }

  /** Where an event of a step stands, some event up to it advances. */
  lemma {:induction false} FirstStepAdvances(p: Pattern, kinds: seq<string>, i: nat, k: nat)
    requires i < |kinds| && k < |p.steps| && p.steps[k] == kinds[i] && DistinctSteps(p)
    ensures exists h: nat :: h <= i && Advances(p, kinds, h)
    decreases i
  {
    if !AllBefore(p, kinds, i, k) {
      var h: nat, j: nat :| h < i && j < |p.steps| && p.steps[j] == kinds[h] && j >= k;
      FirstStepAdvances(p, kinds, h, j);
    } else {
      assert Advances(p, kinds, i);
    }
  }

  /** Every event of a step is of a later step than all such events before it. */
  ghost predicate StepsRise(p: Pattern, kinds: seq<string>) {
    forall i: nat, k: nat :: i < |kinds| && k < |p.steps| && p.steps[k] == kinds[i] ==> AllBefore(p, kinds, i, k)
  }

  /** So the promise holds on events that lie within the limit of each other and whose steps only rise: every tight
      ordered occurrence leads to a report. */
  lemma RisingReported(norm: string -> string, p: Pattern, events: seq<Event>, at: seq<nat>, on: seq<nat>)
    requires p.skipMissing && DistinctSteps(p) && TightOrdered(norm, p, events, at, on)
    requires Close(events, p.maxGap) && StepsRise(p, KindsOf(norm, events))
    ensures Match(norm, p, events).Chain?
  {
    var kinds := KindsOf(norm, events);
    var advancing := Greedy(norm, p, kinds).at;
    GreedyMatches(norm, p, kinds);
    AllAdvancesIs(norm, p, kinds, advancing);
    forall k | 0 <= k < |at|
      ensures at[k] in advancing
    {
      assert AllBefore(p, kinds, at[k], on[k]);
      assert Advances(p, kinds, at[k]);
    }
    SubsetFits(at, advancing, |kinds|);
    TightHiddenIff(norm, p, events, at, on, advancing);
  }

  lemma {:induction false} SubsetFits(a: seq<nat>, b: seq<nat>, bound: nat)
    requires Ascending(a, bound) && Ascending(b, bound) && forall k :: 0 <= k < |a| ==> a[k] in b
    ensures |a| <= |b|
  {
    assert a != [] ==> a[0] in b;
    if a != [] {
      var a1, b1 := a[..|a| - 1], b[..|b| - 1];
      WithoutLast(a, bound);
      WithoutLast(b, bound);
      forall k | 0 <= k < |a1|
        ensures a1[k] in b1
      {
        assert a1[k] == a[k] && a[k] < a[|a| - 1] && a[|a| - 1] in b;
      }
      SubsetFits(a1, b1, bound);
    }
  }

  // ---------- the shipped patterns ----------

  /** A pattern of the table: `allow_skip_missing` is never set there, and its default allows all skips. */
  function Shipped(steps: seq<string>, maxGap: real, minMatch: int): Pattern {
    Pattern(steps, maxGap, minMatch, {}, true)
  }

  const CLASSIC: Pattern :=
    Pattern(["PORT_SCAN", "BRUTE_FORCE", "LATERAL_MOVE", "C2_BEACON", "DATA_EXFIL"], 60.0, 3, {"LATERAL_MOVE"}, true)

  const EXFIL: Pattern := Shipped(["FILE_ACCESS", "DATA_EXFIL"], 15.0, 0)

  const PATTERNS: seq<Pattern> := [
    Shipped(["PORT_SCAN", "BRUTE_FORCE", "C2_BEACON"], 30.0, 3),
    CLASSIC,
    Shipped(["PORT_SCAN", "BRUTE_FORCE", "C2_BEACON", "DATA_EXFIL"], 60.0, 3),
    Shipped(["SUSPICIOUS_LOGIN", "FILE_ACCESS", "LATERAL_MOVE", "C2_BEACON"], 60.0, 2),
    Shipped(["LATERAL_MOVE", "C2_BEACON", "DATA_EXFIL"], 30.0, 2),
    EXFIL,
    Shipped(["PORT_SCAN", "SQL_INJECTION", "PRIV_ESC", "C2_BEACON"], 45.0, 0),
    Shipped(["PHISHING", "SUSPICIOUS_LOGIN", "FILE_ACCESS", "RANSOMWARE"], 120.0, 0),
    Shipped(["DNS_QUERY", "DNS_QUERY", "C2_BEACON"], 10.0, 0),
    Shipped(["UNAUTHORIZED_ACCESS", "DATA_EXFIL"], 30.0, 0),
    Shipped(["UNAUTHORIZED_ACCESS", "UNAUTHORIZED_ACCESS", "DATA_EXFIL"], 60.0, 0)
  ]

  /** Every shipped pattern allows all skips, and either its steps are distinct or it asks for all of them: one of
      `ReportsIff` and `SkippingReportsIff` applies. */
  lemma ShippedCovered(p: Pattern)
    requires p in PATTERNS
    ensures p.skipMissing && p.steps != [] && (DistinctSteps(p) || Needed(p) == |p.steps|)
  {
    var i :| 0 <= i < |PATTERNS| && PATTERNS[i] == p;
  }

  /** Events that are just the first steps in order all advance. */
  lemma EveryEventAdvances(p: Pattern, kinds: seq<string>)
    requires DistinctSteps(p) && |kinds| <= |p.steps| && kinds == p.steps[..|kinds|]
    ensures AllAdvances(p, kinds, Positions(|kinds|))
  {
    forall i: nat | i < |kinds|
      ensures Advances(p, kinds, i)
    {
      assert AllBefore(p, kinds, i, i);
      assert p.steps[i] == kinds[i];
    }
    forall i: nat
      ensures i in Positions(|kinds|) <==> Advances(p, kinds, i)
    {
      if i < |kinds| { assert Positions(|kinds|)[i] == i; }
    }
  }

  /** After an event of the last step nothing advances. */
  lemma NothingAfterLast(p: Pattern, kinds: seq<string>)
    requires DistinctSteps(p) && p.steps != [] && kinds != [] && kinds[0] == p.steps[|p.steps| - 1]
    ensures AllAdvances(p, kinds, [0])
  {
    assert AllBefore(p, kinds, 0, |p.steps| - 1);
  }

  predicate Plain(norm: string -> string) {
    forall k :: 0 <= k < |CLASSIC.steps| ==> norm(CLASSIC.steps[k]) == CLASSIC.steps[k]
  }

  /** The first three steps, ten minutes apart. */
  function Attack(): seq<Event> {
    [Event(1, "PORT_SCAN", 0.0), Event(2, "BRUTE_FORCE", 10.0), Event(3, "LATERAL_MOVE", 20.0)]
  }

  lemma AttackReported(norm: string -> string)
    requires Plain(norm)
    ensures Match(norm, CLASSIC, Attack()).Chain?
  {
    var es := Attack();
    assert CLASSIC.steps[0] == "PORT_SCAN" && CLASSIC.steps[1] == "BRUTE_FORCE" && CLASSIC.steps[2] == "LATERAL_MOVE";
    assert KindsOf(norm, es) == CLASSIC.steps[..3];
    EveryEventAdvances(CLASSIC, KindsOf(norm, es));
    assert PickEvents(es, Positions(3)) == es;
    ReportsIff(norm, CLASSIC, es, Positions(3));
  }

  /** The classic kill chain asks for three of its five steps. Scan, brute force and lateral movement are reported; with
      one exfiltration before them nothing is. */
  lemma EarlyLastStepHidesChain(norm: string -> string)
    requires Plain(norm)
    ensures Match(norm, CLASSIC, Attack()).Chain?
    ensures !Match(norm, CLASSIC, [Event(0, "DATA_EXFIL", -10.0)] + Attack()).Chain?
  {
    AttackReported(norm);
    var es := [Event(0, "DATA_EXFIL", -10.0)] + Attack();
    assert CLASSIC.steps[4] == "DATA_EXFIL";
    assert KindsOf(norm, es)[0] == CLASSIC.steps[|CLASSIC.steps| - 1];
    NothingAfterLast(CLASSIC, KindsOf(norm, es));
    ReportsIff(norm, CLASSIC, es, [0]);
  }

  /** So does one command-and-control event three hours later: it advances, and the gap before it is too long. */
  lemma LateStepHidesChain(norm: string -> string)
    requires Plain(norm)
    ensures Match(norm, CLASSIC, Attack()).Chain?
    ensures !Match(norm, CLASSIC, Attack() + [Event(4, "C2_BEACON", 200.0)]).Chain?
  {
    AttackReported(norm);
    var es := Attack() + [Event(4, "C2_BEACON", 200.0)];
    assert CLASSIC.steps[0] == "PORT_SCAN" && CLASSIC.steps[1] == "BRUTE_FORCE" && CLASSIC.steps[2] == "LATERAL_MOVE";
    assert CLASSIC.steps[3] == "C2_BEACON";
    assert KindsOf(norm, es) == CLASSIC.steps[..4];
    EveryEventAdvances(CLASSIC, KindsOf(norm, es));
    var picked := PickEvents(es, Positions(4));
    assert picked[3].at - picked[2].at == 180.0;
    ReportsIff(norm, CLASSIC, es, Positions(4));
  }

  function Access(): seq<Event> { [Event(1, "FILE_ACCESS", 100.0), Event(2, "DATA_EXFIL", 110.0)] }

  /** The gaps are those of the first events of each step: an old first step hides a tight pair that follows it. */
  lemma EarlyFirstStepHidesChain(norm: string -> string)
    requires norm("FILE_ACCESS") == "FILE_ACCESS" && norm("DATA_EXFIL") == "DATA_EXFIL"
    ensures Match(norm, EXFIL, Access()).Chain?
    ensures !Match(norm, EXFIL, [Event(0, "FILE_ACCESS", 0.0)] + Access()).Chain?
  {
    var near, all := Access(), [Event(0, "FILE_ACCESS", 0.0)] + Access();
    assert EXFIL.steps[0] == "FILE_ACCESS" && EXFIL.steps[1] == "DATA_EXFIL";
    assert KindsOf(norm, near) == EXFIL.steps[..2];
    EveryEventAdvances(EXFIL, KindsOf(norm, near));
    assert PickEvents(near, Positions(2)) == near;
    ReportsIff(norm, EXFIL, near, Positions(2));
    RepeatDoesNotAdvance(EXFIL, KindsOf(norm, all));
    var picked := PickEvents(all, [0, 2]);
    assert picked[1].at - picked[0].at == 110.0;
    ReportsIff(norm, EXFIL, all, [0, 2]);
  }

  lemma RepeatDoesNotAdvance(p: Pattern, kinds: seq<string>)
    requires DistinctSteps(p) && |p.steps| == 2 && kinds == [p.steps[0], p.steps[0], p.steps[1]]
    ensures AllAdvances(p, kinds, [0, 2])
  {
    assert AllBefore(p, kinds, 0, 0) && AllBefore(p, kinds, 2, 1);
    assert Advances(p, kinds, 0) && Advances(p, kinds, 2);
    assert kinds[0] == p.steps[0] && kinds[1] == p.steps[0];
    assert !Advances(p, kinds, 1);
  }
}
