/** Kill-chain correlation: greedy ordered matching of a pattern's steps against an event sequence.
    Times are minutes; `norm` is the event type normalisation, an uninterpreted function. */
module Correlation {
  import opened Common

  datatype Event = Event(id: nat, kind: string, at: real)

  /** `minMatch` of 0 means unset. `skippable` holds normalised names. */
  datatype Pattern = Pattern(steps: seq<string>, maxGap: real, minMatch: int, skippable: set<string>, skipMissing: bool)

  function Needed(p: Pattern): int { if p.minMatch == 0 then |p.steps| else p.minMatch }

  /** Failed is the exception raised when a chain without events is scored. */
  datatype Outcome = Chain(events: seq<Event>) | NoChain | Failed

  // ---------- one event against the remaining steps ----------

  /** The first step from `from` on with this type, or the number of steps. */
  function Seek(steps: seq<string>, from: nat, kind: string): (j: nat)
    requires from <= |steps|
    ensures from <= j <= |steps|
    ensures j < |steps| ==> steps[j] == kind
    ensures forall k :: from <= k < j ==> steps[k] != kind
    decreases |steps| - from
  {
    if from == |steps| || steps[from] == kind then from else Seek(steps, from + 1, kind)
  }

  predicate MaySkip(norm: string -> string, p: Pattern, from: nat, to: nat)
    requires from <= to <= |p.steps|
  {
    p.skipMissing || forall k :: from <= k < to ==> norm(p.steps[k]) in p.skippable
  }

  /** The step an event takes: the first one of its type, if every step before it may be skipped. */
  function Taken(norm: string -> string, p: Pattern, step: nat, kind: string): (j: nat)
    requires step <= |p.steps|
    ensures step <= j <= |p.steps|
  {
    var j := Seek(p.steps, step, kind);
    if j == step || MaySkip(norm, p, step, j) then j else |p.steps|
  }

  // ---------- the greedy match ----------

  /** Event positions, the steps they took, and the next step wanted. */
  datatype Matched = Matched(at: seq<nat>, on: seq<nat>, step: nat)

  function Greedy(norm: string -> string, p: Pattern, kinds: seq<string>): (m: Matched)
    ensures m.step <= |p.steps|
  {
    if kinds == [] then Matched([], [], 0)
    else
      var i := |kinds| - 1;
      Extend(norm, p, Greedy(norm, p, kinds[..i]), i, kinds[i])
  }

  function Extend(norm: string -> string, p: Pattern, m: Matched, i: nat, kind: string): (r: Matched)
    requires m.step <= |p.steps|
    ensures r.step <= |p.steps|
  {
    var j := Taken(norm, p, m.step, kind);
    if j < |p.steps| then Matched(m.at + [i], m.on + [j], j + 1) else m
  }

  ghost predicate Ascending(s: seq<nat>, bound: nat) {
    && (forall i, j :: 0 <= i < j < |s| ==> s[i] < s[j])
    && (forall i :: 0 <= i < |s| ==> s[i] < bound)
  }

  /** The step after which the k-th matched event had to continue. */
  function From(m: Matched, k: nat): nat
    requires k <= |m.on|
  {
    if k == 0 then 0 else m.on[k - 1] + 1
  }

  /** Positions and steps strictly increase and types agree. */
  ghost predicate Matches(p: Pattern, kinds: seq<string>, m: Matched) {
    && |m.at| == |m.on| && Ascending(m.at, |kinds|) && Ascending(m.on, |p.steps|)
    && (forall k :: 0 <= k < |m.at| ==> kinds[m.at[k]] == p.steps[m.on[k]])
    && m.step == From(m, |m.on|)
  }

  /** Whatever is passed over before the k-th matched step may be skipped. */
  ghost predicate SkipOk(norm: string -> string, p: Pattern, m: Matched, k: nat)
    requires k < |m.on| && m.on[k] < |p.steps|
  {
    From(m, k) <= m.on[k] && (From(m, k) == m.on[k] || MaySkip(norm, p, From(m, k), m.on[k]))
  }

  ghost predicate SkipsOk(norm: string -> string, p: Pattern, m: Matched)
    requires Ascending(m.on, |p.steps|)
  {
    forall k: nat :: k < |m.on| ==> SkipOk(norm, p, m, k)
  }

  ghost predicate Witness(norm: string -> string, p: Pattern, kinds: seq<string>, m: Matched) {
    Matches(p, kinds, m) && SkipsOk(norm, p, m)
  }

  lemma SeekAfter(norm: string -> string, p: Pattern, m: Matched, kind: string)
    requires m.step <= |p.steps| && Ascending(m.on, |p.steps|) && m.step == From(m, |m.on|)
    requires Taken(norm, p, m.step, kind) < |p.steps|
    ensures Ascending(m.on + [Taken(norm, p, m.step, kind)], |p.steps|)
    ensures p.steps[Taken(norm, p, m.step, kind)] == kind
  {
    var j := Taken(norm, p, m.step, kind);
    forall i | 0 <= i < |m.on|
      ensures m.on[i] < j
    {
      assert i < |m.on| - 1 ==> m.on[i] < m.on[|m.on| - 1];
    }
  }

  lemma ExtendKeepsMatches(norm: string -> string, p: Pattern, kinds: seq<string>, m: Matched, kind: string)
    requires Matches(p, kinds, m) && m.step <= |p.steps|
    ensures Matches(p, kinds + [kind], Extend(norm, p, m, |kinds|, kind))
  {
    var r := Extend(norm, p, m, |kinds|, kind);
    if Taken(norm, p, m.step, kind) < |p.steps| {
      SeekAfter(norm, p, m, kind);
    }
    forall k | 0 <= k < |m.at|
      ensures (kinds + [kind])[m.at[k]] == p.steps[m.on[k]]
    {}
  }

  lemma SkipOkStays(norm: string -> string, p: Pattern, m: Matched, r: Matched, k: nat)
    requires k < |m.on| && m.on[k] < |p.steps| && SkipOk(norm, p, m, k)
    requires |r.on| > |m.on| && r.on[..|m.on|] == m.on
    ensures r.on[k] < |p.steps| && SkipOk(norm, p, r, k)
  {
    assert r.on[k] == r.on[..|m.on|][k];
    if k > 0 { assert r.on[k - 1] == r.on[..|m.on|][k - 1]; }
  }

  lemma SkipOkNew(norm: string -> string, p: Pattern, m: Matched, i: nat, kind: string)
    requires m.step <= |p.steps| && m.step == From(m, |m.on|) && Taken(norm, p, m.step, kind) < |p.steps|
    ensures SkipOk(norm, p, Extend(norm, p, m, i, kind), |m.on|)
  {
    var r := Extend(norm, p, m, i, kind);
    assert From(r, |m.on|) == From(m, |m.on|);
  }

  lemma ExtendKeepsSkips(norm: string -> string, p: Pattern, m: Matched, i: nat, kind: string)
    requires m.step <= |p.steps| && m.step == From(m, |m.on|)
    requires Ascending(m.on, |p.steps|) && SkipsOk(norm, p, m)
    requires Ascending(Extend(norm, p, m, i, kind).on, |p.steps|)
    ensures SkipsOk(norm, p, Extend(norm, p, m, i, kind))
  {
    var r := Extend(norm, p, m, i, kind);
    if Taken(norm, p, m.step, kind) < |p.steps| {
      SkipOkNew(norm, p, m, i, kind);
      assert r.on[..|m.on|] == m.on;
      forall k: nat | k < |m.on|
        ensures SkipOk(norm, p, r, k)
      {
        SkipOkStays(norm, p, m, r, k);
      }
    }
  }

  lemma {:induction false} GreedyMatches(norm: string -> string, p: Pattern, kinds: seq<string>)
    ensures Matches(p, kinds, Greedy(norm, p, kinds))
  {
    if kinds != [] {
      var i := |kinds| - 1;
      GreedyMatches(norm, p, kinds[..i]);
      ExtendKeepsMatches(norm, p, kinds[..i], Greedy(norm, p, kinds[..i]), kinds[i]);
      assert kinds[..i] + [kinds[i]] == kinds;
    }
  }

  /** The greedy match is an ordered occurrence of steps, and every step it passes over may be skipped. */
  lemma {:induction false} GreedyWitness(norm: string -> string, p: Pattern, kinds: seq<string>)
    ensures Witness(norm, p, kinds, Greedy(norm, p, kinds))
  {
    GreedyMatches(norm, p, kinds);
    if kinds != [] {
      var i := |kinds| - 1;
      GreedyWitness(norm, p, kinds[..i]);
      ExtendKeepsSkips(norm, p, Greedy(norm, p, kinds[..i]), i, kinds[i]);
    }
  }

  // ---------- the whole matcher ----------

  function KindsOf(norm: string -> string, events: seq<Event>): (r: seq<string>)
    ensures |r| == |events| && forall i :: 0 <= i < |r| ==> r[i] == norm(events[i].kind)
  {
    seq(|events|, i requires 0 <= i < |events| => norm(events[i].kind))
  }

  function PickEvents(events: seq<Event>, at: seq<nat>): (r: seq<Event>)
    requires forall k :: 0 <= k < |at| ==> at[k] < |events|
    ensures |r| == |at| && forall k :: 0 <= k < |r| ==> r[k] == events[at[k]]
  {
    seq(|at|, k requires 0 <= k < |at| => events[at[k]])
  }

  predicate GapsOk(es: seq<Event>, maxGap: real) {
    forall j :: 0 < j < |es| ==> es[j].at - es[j - 1].at <= maxGap
  }

  function Match(norm: string -> string, p: Pattern, events: seq<Event>): Outcome {
    if |events| < Needed(p) then NoChain
    else
      GreedyMatches(norm, p, KindsOf(norm, events));
      var at := Greedy(norm, p, KindsOf(norm, events)).at;
      if |at| < Needed(p) then NoChain
      else
        var es := PickEvents(events, at);
        if !GapsOk(es, p.maxGap) then NoChain
        else if es == [] then Failed
        else Chain(es)
  }

  lemma {:induction false} SpanBound(es: seq<Event>, gap: real)
    requires es != [] && GapsOk(es, gap)
    ensures es[|es| - 1].at - es[0].at <= (|es| - 1) as real * gap
  {
    var n := |es| - 1;
    if n > 0 {
      SpanBound(es[..n], gap);
      assert es[n].at - es[n - 1].at <= gap;
      assert n as real * gap == (n - 1) as real * gap + gap;
    }
  }

  /** A reported chain is an ordered occurrence of enough steps, with every gap and so the whole span bounded. */
  lemma ChainMeaning(norm: string -> string, p: Pattern, events: seq<Event>) returns (m: Matched)
    requires Match(norm, p, events).Chain?
    ensures Witness(norm, p, KindsOf(norm, events), m)
    ensures var es := Match(norm, p, events).events;
            && es == PickEvents(events, m.at) && |es| >= Needed(p) && |es| > 0
            && GapsOk(es, p.maxGap) && es[|es| - 1].at - es[0].at <= (|es| - 1) as real * p.maxGap
  {
    m := Greedy(norm, p, KindsOf(norm, events));
    GreedyWitness(norm, p, KindsOf(norm, events));
    SpanBound(Match(norm, p, events).events, p.maxGap);
  }

  /** The matcher raises exactly when nothing matched and nothing was required. */
  lemma FailsIff(norm: string -> string, p: Pattern, events: seq<Event>)
    ensures Match(norm, p, events).Failed? <==> Needed(p) <= 0 && Greedy(norm, p, KindsOf(norm, events)).at == []
  {
    GreedyWitness(norm, p, KindsOf(norm, events));
  }

  // ---------- completeness without skipping ----------

  function Strict(p: Pattern): Pattern { p.(skippable := {}, skipMissing := false) }

  /** The first |idx| steps occur in order at these positions. */
  ghost predicate Embeds(steps: seq<string>, kinds: seq<string>, idx: seq<nat>) {
    && |idx| <= |steps| && Ascending(idx, |kinds|)
    && forall j :: 0 <= j < |idx| ==> kinds[idx[j]] == steps[j]
  }

  lemma {:induction false} StrictTakesInOrder(norm: string -> string, p: Pattern, kinds: seq<string>)
    ensures var m := Greedy(norm, Strict(p), kinds); |m.at| == m.step && Embeds(p.steps, kinds, m.at)
  {
    if kinds != [] {
      StrictTakesInOrder(norm, p, kinds[..|kinds| - 1]);
      var m := Greedy(norm, Strict(p), kinds[..|kinds| - 1]);
      StrictTaken(norm, p, m.step, kinds[|kinds| - 1]);
    }
  }

  lemma StrictTaken(norm: string -> string, p: Pattern, step: nat, kind: string)
    requires step <= |p.steps|
    ensures Taken(norm, Strict(p), step, kind) == if step < |p.steps| && p.steps[step] == kind then step else |p.steps|
  {
    var j := Seek(p.steps, step, kind);
    if step < j < |p.steps| {
      assert norm(Strict(p).steps[step]) !in Strict(p).skippable;
    }
  }

  ghost predicate NoLater(at: seq<nat>, idx: seq<nat>) {
    |at| >= |idx| && forall j :: 0 <= j < |idx| ==> at[j] <= idx[j]
  }

  lemma EmbedsPrefix(steps: seq<string>, kinds: seq<string>, idx: seq<nat>, k: nat)
    requires Embeds(steps, kinds, idx) && kinds != [] && k <= |idx|
    requires k > 0 ==> idx[k - 1] < |kinds| - 1
    ensures Embeds(steps, kinds[..|kinds| - 1], idx[..k])
  {
    forall j | 0 <= j < k
      ensures idx[j] < |kinds| - 1
    {
      assert j < k - 1 ==> idx[j] < idx[k - 1];
    }
  }

  /** Without skipping, the last event is taken exactly when it is the step wanted. */
  lemma StrictLast(norm: string -> string, p: Pattern, kinds: seq<string>)
    requires kinds != []
    ensures var n := |kinds| - 1;
            var at := Greedy(norm, Strict(p), kinds[..n]).at;
            && Ascending(at, n)
            && Greedy(norm, Strict(p), kinds).at
               == if |at| < |p.steps| && p.steps[|at|] == kinds[n] then at + [n] else at
  {
    var n := |kinds| - 1;
    StrictTakesInOrder(norm, p, kinds[..n]);
    StrictTaken(norm, p, Greedy(norm, Strict(p), kinds[..n]).step, kinds[n]);
  }

  /** The last event is the occurrence's last one. */
  lemma EarliestWithLast(norm: string -> string, p: Pattern, kinds: seq<string>, idx: seq<nat>)
    requires Embeds(p.steps, kinds, idx) && idx != [] && idx[|idx| - 1] == |kinds| - 1
    requires NoLater(Greedy(norm, Strict(p), kinds[..|kinds| - 1]).at, idx[..|idx| - 1])
    ensures NoLater(Greedy(norm, Strict(p), kinds).at, idx)
  {
    var n := |kinds| - 1;
    StrictLast(norm, p, kinds);
    assert kinds[idx[|idx| - 1]] == p.steps[|idx| - 1];
    var at := Greedy(norm, Strict(p), kinds[..n]).at;
    EarliestAppend(p.steps, kinds[n], at, idx, n, Greedy(norm, Strict(p), kinds).at);
  }

  lemma EarliestAppend(steps: seq<string>, kind: string, at: seq<nat>, idx: seq<nat>, n: nat, next: seq<nat>)
    requires idx != [] && |idx| <= |steps| && idx[|idx| - 1] == n && steps[|idx| - 1] == kind
    requires NoLater(at, idx[..|idx| - 1]) && Ascending(at, n)
    requires next == if |at| < |steps| && steps[|at|] == kind then at + [n] else at
    ensures NoLater(next, idx)
  {
    NoLaterLast(at, idx, n, next);
  }

  lemma EarliestWithoutLast(norm: string -> string, p: Pattern, kinds: seq<string>, idx: seq<nat>)
    requires kinds != [] && NoLater(Greedy(norm, Strict(p), kinds[..|kinds| - 1]).at, idx)
    ensures NoLater(Greedy(norm, Strict(p), kinds).at, idx)
  {
    StrictLast(norm, p, kinds);
  }

  /** Without skipping, the greedy match ends each prefix of the steps as early as any occurrence does. */
  lemma {:induction false} StrictEarliest(norm: string -> string, p: Pattern, kinds: seq<string>, idx: seq<nat>)
    requires Embeds(p.steps, kinds, idx)
    ensures NoLater(Greedy(norm, Strict(p), kinds).at, idx)
  {
    if idx != [] {
      assert idx[0] < |kinds|;
      var n, k := |kinds| - 1, |idx|;
      if idx[k - 1] == n {
        assert k > 1 ==> idx[k - 2] < idx[k - 1];
        EmbedsPrefix(p.steps, kinds, idx, k - 1);
        StrictEarliest(norm, p, kinds[..n], idx[..k - 1]);
        EarliestWithLast(norm, p, kinds, idx);
      } else {
        EmbedsPrefix(p.steps, kinds, idx, k);
        assert idx[..k] == idx;
        StrictEarliest(norm, p, kinds[..n], idx);
        EarliestWithoutLast(norm, p, kinds, idx);
      }
    }
  }

  lemma NoLaterLast(at: seq<nat>, idx: seq<nat>, n: nat, next: seq<nat>)
    requires idx != [] && idx[|idx| - 1] == n && NoLater(at, idx[..|idx| - 1]) && Ascending(at, n)
    requires next == at + [n] || (next == at && |at| >= |idx|)
    ensures NoLater(next, idx)
  {
    forall j | 0 <= j < |idx|
      ensures next[j] <= idx[j]
    {
      if j < |idx| - 1 { assert at[j] <= idx[..|idx| - 1][j]; }
    }
  }

  /** Without skipping, k steps are matched if and only if the first k steps occur in order at all. */
  lemma StrictCompleteIff(norm: string -> string, p: Pattern, kinds: seq<string>, k: nat)
    requires k <= |p.steps|
    ensures |Greedy(norm, Strict(p), kinds).at| >= k <==>
            exists idx: seq<nat> :: |idx| == k && Embeds(p.steps, kinds, idx)
  {
    var at := Greedy(norm, Strict(p), kinds).at;
    StrictTakesInOrder(norm, p, kinds);
    if |at| >= k {
      assert |at[..k]| == k && Embeds(p.steps, kinds, at[..k]);
    }
    if idx: seq<nat> :| |idx| == k && Embeds(p.steps, kinds, idx) {
      StrictEarliest(norm, p, kinds, idx);
    }
  }

  // ---------- when a tight occurrence is reported ----------

  /** An occurrence of as many of the first steps as occur in order at all, each as early as in any such occurrence. */
  ghost predicate LeastLongest(steps: seq<string>, kinds: seq<string>, idx: seq<nat>) {
    && Embeds(steps, kinds, idx)
    && forall other: seq<nat> :: Embeds(steps, kinds, other) ==>
         |other| <= |idx| && (|other| == |idx| ==> NoLater(idx, other))
  }

  /** There is exactly one, and the matcher selects it when it may not skip. */
  lemma LeastLongestIs(norm: string -> string, p: Pattern, kinds: seq<string>, idx: seq<nat>)
    ensures LeastLongest(p.steps, kinds, idx) <==> idx == Greedy(norm, Strict(p), kinds).at
  {
    var at := Greedy(norm, Strict(p), kinds).at;
    StrictTakesInOrder(norm, p, kinds);
    forall other: seq<nat> | Embeds(p.steps, kinds, other)
      ensures NoLater(at, other)
    {
      StrictEarliest(norm, p, kinds, other);
    }
    if LeastLongest(p.steps, kinds, idx) {
      assert NoLater(idx, at) && NoLater(at, idx);
    }
  }

  /** An occurrence of enough steps with every gap within the limit. */
  ghost predicate Tight(norm: string -> string, p: Pattern, events: seq<Event>, idx: seq<nat>) {
    && Embeds(p.steps, KindsOf(norm, events), idx)
    && |idx| >= Needed(p) && |idx| > 0 && GapsOk(PickEvents(events, idx), p.maxGap)
  }

  lemma {:induction false} AscendingFits(s: seq<nat>, bound: nat)
    requires Ascending(s, bound)
    ensures |s| <= bound
    ensures forall k :: 0 <= k < |s| ==> k <= s[k] <= bound - (|s| - k)
  {
    if s != [] {
      var n := |s| - 1;
      assert Ascending(s[..n], s[n]);
      AscendingFits(s[..n], s[n]);
      forall k | 0 <= k < n ensures k <= s[k] <= bound - (|s| - k) { assert s[k] == s[..n][k]; }
    }
  }

  /** Without skipping, a chain is reported exactly when that one occurrence is tight. */
  lemma StrictReportsIff(norm: string -> string, p: Pattern, events: seq<Event>, least: seq<nat>)
    requires LeastLongest(p.steps, KindsOf(norm, events), least)
    ensures Match(norm, Strict(p), events).Chain? <==> Tight(norm, p, events, least)
  {
    LeastLongestIs(norm, p, KindsOf(norm, events), least);
    AscendingFits(least, |events|);
  }

  /** Some tight occurrence exists: without skipping, it goes unreported exactly when, in the least occurrence of the
      longest prefix of the steps that occurs, a gap exceeds the limit. */
  lemma StrictTightHiddenIff(norm: string -> string, p: Pattern, events: seq<Event>, tight: seq<nat>, least: seq<nat>)
    requires Tight(norm, p, events, tight) && LeastLongest(p.steps, KindsOf(norm, events), least)
    ensures !Match(norm, Strict(p), events).Chain? <==> !GapsOk(PickEvents(events, least), p.maxGap)
  {
    StrictReportsIff(norm, p, events, least);
  }

  /** No two events are further apart than one gap may be. */
  predicate Close(events: seq<Event>, maxGap: real) {
    forall i, j :: 0 <= i < |events| && 0 <= j < |events| ==> events[j].at - events[i].at <= maxGap
  }

  /** On events that lie close together the promise holds: without skipping, a chain is reported if and only if the
      required number of first steps, at least one, occurs in order. */
  lemma StrictCloseReportsIff(norm: string -> string, p: Pattern, events: seq<Event>)
    requires Close(events, p.maxGap)
    ensures Match(norm, Strict(p), events).Chain? <==>
            exists idx: seq<nat> :: |idx| == Max(Needed(p), 1) && Embeds(p.steps, KindsOf(norm, events), idx)
  {
    var kinds := KindsOf(norm, events);
    var at := Greedy(norm, Strict(p), kinds).at;
    StrictTakesInOrder(norm, p, kinds);
    LeastLongestIs(norm, p, kinds, at);
    StrictReportsIff(norm, p, events, at);
    if Max(Needed(p), 1) <= |p.steps| {
      StrictCompleteIff(norm, p, kinds, Max(Needed(p), 1));
    }
  }

  // ---------- what skipping loses ----------

  /** Event i takes a later step than the one wanted. */
  predicate Shortcut(norm: string -> string, p: Pattern, kinds: seq<string>, i: nat)
    requires i < |kinds|
  {
    var step := Greedy(norm, p, kinds[..i]).step;
    step < Taken(norm, p, step, kinds[i]) < |p.steps|
  }

  ghost predicate NoShortcut(norm: string -> string, p: Pattern, kinds: seq<string>) {
    forall i: nat :: i < |kinds| ==> !Shortcut(norm, p, kinds, i)
  }

  lemma ShortcutPrefix(norm: string -> string, p: Pattern, kinds: seq<string>)
    requires kinds != []
    ensures NoShortcut(norm, p, kinds) <==>
              NoShortcut(norm, p, kinds[..|kinds| - 1]) && !Shortcut(norm, p, kinds, |kinds| - 1)
  {
    var n := |kinds| - 1;
    forall i: nat | i < n
      ensures Shortcut(norm, p, kinds[..n], i) <==> Shortcut(norm, p, kinds, i)
    {
      assert kinds[..n][..i] == kinds[..i];
    }
  }

  lemma TakenUnlessShortcut(norm: string -> string, p: Pattern, step: nat, kind: string)
    requires step <= |p.steps|
    ensures Taken(norm, p, step, kind) == step || Taken(norm, Strict(p), step, kind) == |p.steps|
    ensures Taken(norm, p, step, kind) == step ==> Taken(norm, Strict(p), step, kind) == step
  {
    StrictTaken(norm, p, step, kind);
  }

  /** Skipping picks the events the strict matcher picks if and only if no event ever takes a later step. */
  lemma {:induction false} SkippingAgreesIff(norm: string -> string, p: Pattern, kinds: seq<string>)
    ensures Greedy(norm, p, kinds).at == Greedy(norm, Strict(p), kinds).at <==> NoShortcut(norm, p, kinds)
    ensures NoShortcut(norm, p, kinds) ==> Greedy(norm, p, kinds) == Greedy(norm, Strict(p), kinds)
  {
    if kinds != [] {
      var n := |kinds| - 1;
      SkippingAgreesIff(norm, p, kinds[..n]);
      ShortcutPrefix(norm, p, kinds);
      var a, b := Greedy(norm, p, kinds[..n]), Greedy(norm, Strict(p), kinds[..n]);
      GreedyWitness(norm, p, kinds[..n]);
      GreedyWitness(norm, Strict(p), kinds[..n]);
      if a.at == b.at {
        TakenUnlessShortcut(norm, p, a.step, kinds[n]);
      } else {
        DifferentStays(a.at, b.at, n, Greedy(norm, p, kinds).at, Greedy(norm, Strict(p), kinds).at);
      }
    }
  }

  lemma DifferentStays(a: seq<nat>, b: seq<nat>, n: nat, x: seq<nat>, y: seq<nat>)
    requires a != b && Ascending(a, n) && Ascending(b, n)
    requires (x == a || x == a + [n]) && (y == b || y == b + [n])
    ensures x != y
  {
    if |x| == |y| {
      if x == a && y != b {
        assert y[|b|] == n && x[|b|] < n;
      } else if x != a && y == b {
        assert x[|a|] == n && y[|a|] < n;
      } else if x != a {
        assert x[..|a|] == a && y[..|b|] == b;
      }
    }
  }

  // ---------- when skipping loses a complete chain ----------

  /** Between its predecessor and the event of step k, an event of a later step that may be reached by skipping. */
  predicate Intrudes(norm: string -> string, p: Pattern, kinds: seq<string>, idx: seq<nat>, k: nat, i: nat, j: nat)
    requires |idx| == |p.steps|
  {
    && k < j < |p.steps| && i < |kinds| && i < idx[k] && (k > 0 ==> idx[k - 1] < i)
    && kinds[i] == p.steps[j] && MaySkip(norm, p, k, j)
  }

  ghost predicate Undisturbed(norm: string -> string, p: Pattern, kinds: seq<string>, idx: seq<nat>)
    requires |idx| == |p.steps|
  {
    forall k: nat, i: nat, j: nat :: !Intrudes(norm, p, kinds, idx, k, i, j)
  }

  /** A step taken out of order is never made up for. */
  lemma {:induction false} GreedyDense(norm: string -> string, p: Pattern, kinds: seq<string>)
    ensures var m := Greedy(norm, p, kinds);
            |m.at| <= m.step && (|m.at| == m.step <==> NoShortcut(norm, p, kinds))
  {
    if kinds != [] {
      GreedyDense(norm, p, kinds[..|kinds| - 1]);
      ShortcutPrefix(norm, p, kinds);
    }
  }

  /** What was selected by event i stays, and what is selected later lies behind. */
  lemma {:induction false} GreedyGrows(norm: string -> string, p: Pattern, kinds: seq<string>, i: nat)
    requires i <= |kinds|
    ensures var a, b := Greedy(norm, p, kinds[..i]).at, Greedy(norm, p, kinds).at;
            |a| <= |b| && b[..|a|] == a && forall k :: |a| <= k < |b| ==> i <= b[k]
  {
    if i < |kinds| {
      assert kinds[..|kinds| - 1][..i] == kinds[..i];
      GreedyGrows(norm, p, kinds[..|kinds| - 1], i);
    } else {
      assert kinds[..i] == kinds;
    }
  }

  lemma NoShortcutTo(norm: string -> string, p: Pattern, kinds: seq<string>, i: nat)
    requires i <= |kinds| && forall k: nat :: k < i ==> !Shortcut(norm, p, kinds, k)
    ensures NoShortcut(norm, p, kinds[..i])
  {
    forall k: nat | k < i
      ensures !Shortcut(norm, p, kinds[..i], k)
    {
      assert kinds[..i][..k] == kinds[..k] && kinds[..i][k] == kinds[k];
      assert !Shortcut(norm, p, kinds, k);
    }
  }

  /** While no event took a later step, the next step wanted is the number of events of the occurrence so far. */
  lemma WantedAt(norm: string -> string, p: Pattern, kinds: seq<string>, idx: seq<nat>, i: nat) returns (k: nat)
    requires LeastLongest(p.steps, kinds, idx) && i <= |kinds|
    requires NoShortcut(norm, p, kinds[..i])
    ensures k == Greedy(norm, p, kinds[..i]).step <= |idx|
    ensures (k > 0 ==> idx[k - 1] < i) && (k < |idx| ==> i <= idx[k])
  {
    LeastLongestIs(norm, p, kinds, idx);
    SkippingAgreesIff(norm, p, kinds[..i]);
    StrictTakesInOrder(norm, p, kinds[..i]);
    GreedyGrows(norm, Strict(p), kinds, i);
    k := Greedy(norm, p, kinds[..i]).step;
    var a := Greedy(norm, Strict(p), kinds[..i]).at;
    assert k > 0 ==> idx[..|a|][k - 1] == a[k - 1];
  }

  lemma MaySkipLess(norm: string -> string, p: Pattern, k: nat, j: nat, to: nat)
    requires k <= to <= j <= |p.steps| && MaySkip(norm, p, k, j)
    ensures MaySkip(norm, p, k, to)
  {}

  /** No event of a least occurrence's next step stands before that step's own event. */
  lemma LeastSkipsNone(steps: seq<string>, kinds: seq<string>, idx: seq<nat>, k: nat, i: nat)
    requires LeastLongest(steps, kinds, idx) && k < |idx| && i < idx[k] && (k > 0 ==> idx[k - 1] < i)
    ensures kinds[i] != steps[k]
  {
    if kinds[i] == steps[k] {
      MoveEarlier(steps, kinds, idx, k, i);
    }
  }

  lemma MoveEarlier(steps: seq<string>, kinds: seq<string>, idx: seq<nat>, k: nat, i: nat)
    requires Embeds(steps, kinds, idx) && k < |idx| && i < idx[k] && (k > 0 ==> idx[k - 1] < i)
    requires kinds[i] == steps[k]
    ensures Embeds(steps, kinds, idx[k := i])
  {
    var other := idx[k := i];
    forall a, b | 0 <= a < b < |other|
      ensures other[a] < other[b]
    {
      assert a < k - 1 ==> idx[a] < idx[k - 1];
      assert k < b ==> idx[k] < idx[b];
    }
  }

  lemma IntruderIsShortcut(norm: string -> string, p: Pattern, kinds: seq<string>, idx: seq<nat>, k: nat, i: nat,
                           j: nat)
    requires LeastLongest(p.steps, kinds, idx) && |idx| == |p.steps| && Intrudes(norm, p, kinds, idx, k, i, j)
    ensures !NoShortcut(norm, p, kinds)
  {
    if NoShortcut(norm, p, kinds) {
      NoShortcutTo(norm, p, kinds, i);
      var w := WantedAt(norm, p, kinds, idx, i);
      SamePlace(idx, k, w, i, |kinds|);
      LeastSkipsNone(p.steps, kinds, idx, k, i);
      var to := Seek(p.steps, k, kinds[i]);
      assert k < to <= j;
      MaySkipLess(norm, p, k, j, to);
      assert Shortcut(norm, p, kinds, i);
    }
  }

  /** The number of positions before i. */
  lemma SamePlace(idx: seq<nat>, k: nat, w: nat, i: nat, bound: nat)
    requires Ascending(idx, bound) && k < |idx| && w <= |idx|
    requires i < idx[k] && (k > 0 ==> idx[k - 1] < i)
    requires (w > 0 ==> idx[w - 1] < i) && (w < |idx| ==> i <= idx[w])
    ensures w == k
  {}

  lemma {:induction false} FirstShortcut(norm: string -> string, p: Pattern, kinds: seq<string>) returns (i: nat)
    requires !NoShortcut(norm, p, kinds)
    ensures i < |kinds| && Shortcut(norm, p, kinds, i) && NoShortcut(norm, p, kinds[..i])
  {
    var n := |kinds| - 1;
    ShortcutPrefix(norm, p, kinds);
    if NoShortcut(norm, p, kinds[..n]) {
      i := n;
    } else {
      i := FirstShortcut(norm, p, kinds[..n]);
      assert kinds[..n][..i] == kinds[..i] && kinds[..n][i] == kinds[i];
    }
  }

  lemma ShortcutIsIntruder(norm: string -> string, p: Pattern, kinds: seq<string>, idx: seq<nat>)
    requires LeastLongest(p.steps, kinds, idx) && |idx| == |p.steps| && !NoShortcut(norm, p, kinds)
    ensures !Undisturbed(norm, p, kinds, idx)
  {
    var i := FirstShortcut(norm, p, kinds);
    var k := WantedAt(norm, p, kinds, idx, i);
    var j := Taken(norm, p, k, kinds[i]);
    assert Seek(p.steps, k, kinds[i]) == j && p.steps[j] == kinds[i] && p.steps[k] != kinds[i];
    assert kinds[idx[k]] == p.steps[k];
    assert Intrudes(norm, p, kinds, idx, k, i, j);
  }

  /** All steps occur in order, `idx` being the least such occurrence: the matcher takes all of them exactly when no
      event between two of these is of a later step that skipping reaches from there. */
  lemma SkippingCompletesIff(norm: string -> string, p: Pattern, kinds: seq<string>, idx: seq<nat>)
    requires LeastLongest(p.steps, kinds, idx) && |idx| == |p.steps|
    ensures |Greedy(norm, p, kinds).at| == |p.steps| <==> Undisturbed(norm, p, kinds, idx)
    ensures Undisturbed(norm, p, kinds, idx) ==> Greedy(norm, p, kinds).at == idx
  {
    GreedyDense(norm, p, kinds);
    LeastLongestIs(norm, p, kinds, idx);
    SkippingAgreesIff(norm, p, kinds);
    if NoShortcut(norm, p, kinds) {
      forall k: nat, i: nat, j: nat
        ensures !Intrudes(norm, p, kinds, idx, k, i, j)
      {
        if Intrudes(norm, p, kinds, idx, k, i, j) {
          IntruderIsShortcut(norm, p, kinds, idx, k, i, j);
          assert false;
        }
      }
    } else {
      ShortcutIsIntruder(norm, p, kinds, idx);
    }
  }

  /** The same for whole reports where all steps are required: a complete chain goes unreported exactly when an event
      intrudes or the least occurrence has a gap over the limit. */
  lemma SkippingReportsIff(norm: string -> string, p: Pattern, events: seq<Event>, idx: seq<nat>)
    requires p.steps != [] && Needed(p) == |p.steps|
    requires LeastLongest(p.steps, KindsOf(norm, events), idx) && |idx| == |p.steps|
    ensures Match(norm, p, events).Chain? <==>
            Undisturbed(norm, p, KindsOf(norm, events), idx) && GapsOk(PickEvents(events, idx), p.maxGap)
  {
    var kinds := KindsOf(norm, events);
    SkippingCompletesIff(norm, p, kinds, idx);
    GreedyMatches(norm, p, kinds);
    GreedyDense(norm, p, kinds);
    AscendingFits(idx, |events|);
  }

  ghost predicate Occurs(steps: seq<string>, kinds: seq<string>) {
    exists idx: seq<nat> :: |idx| == |steps| && Embeds(steps, kinds, idx)
  }

  /** Skipping reaches from a step only steps of its own type. */
  ghost predicate SkipsAlike(norm: string -> string, p: Pattern) {
    forall k: nat, j: nat :: k < j < |p.steps| && MaySkip(norm, p, k, j) ==> p.steps[j] == p.steps[k]
  }

  lemma AlikeCompletes(norm: string -> string, p: Pattern, kinds: seq<string>)
    requires SkipsAlike(norm, p) && Occurs(p.steps, kinds)
    ensures |Greedy(norm, p, kinds).at| == |p.steps|
  {
    var idx := Greedy(norm, Strict(p), kinds).at;
    LeastLongestIs(norm, p, kinds, idx);
    forall k: nat, i: nat, j: nat
      ensures !Intrudes(norm, p, kinds, idx, k, i, j)
    {
      if Intrudes(norm, p, kinds, idx, k, i, j) {
        LeastSkipsNone(p.steps, kinds, idx, k, i);
        assert false;
      }
    }
    SkippingCompletesIff(norm, p, kinds, idx);
  }

  /** The steps with step j put in before step k. */
  function Disturbed(steps: seq<string>, k: nat, j: nat): seq<string>
    requires k < j < |steps|
  {
    steps[..k] + [steps[j]] + steps[k..]
  }

  lemma DisturbedOccurs(steps: seq<string>, k: nat, j: nat)
    requires k < j < |steps|
    ensures Occurs(steps, Disturbed(steps, k, j))
  {
    var idx: seq<nat> := seq(|steps|, m requires 0 <= m < |steps| => if m < k then m else m + 1);
    assert |idx| == |steps| && Embeds(steps, Disturbed(steps, k, j), idx);
  }

  lemma {:induction false} InOrderTakesAll(norm: string -> string, p: Pattern, k: nat)
    requires k <= |p.steps|
    ensures Greedy(norm, p, p.steps[..k]).step == k
  {
    if k > 0 {
      InOrderTakesAll(norm, p, k - 1);
      assert p.steps[..k][..k - 1] == p.steps[..k - 1];
    }
  }

  lemma DisturbedLoses(norm: string -> string, p: Pattern, k: nat, j: nat)
    requires k < j < |p.steps| && MaySkip(norm, p, k, j) && p.steps[j] != p.steps[k]
    ensures |Greedy(norm, p, Disturbed(p.steps, k, j)).at| < |p.steps|
  {
    var kinds := Disturbed(p.steps, k, j);
    assert kinds[..k] == p.steps[..k] && kinds[k] == p.steps[j];
    InOrderTakesAll(norm, p, k);
    var to := Seek(p.steps, k, kinds[k]);
    assert k < to <= j;
    MaySkipLess(norm, p, k, j, to);
    assert Shortcut(norm, p, kinds, k);
    GreedyDense(norm, p, kinds);
  }

  /** A pattern never loses a complete chain to skipping, whatever the events, if and only if skipping reaches from each
      step only steps of its own type. */
  lemma SkippingSafeIff(norm: string -> string, p: Pattern)
    ensures (forall kinds: seq<string> :: Occurs(p.steps, kinds) ==> |Greedy(norm, p, kinds).at| == |p.steps|)
            <==> SkipsAlike(norm, p)
  {
    if SkipsAlike(norm, p) {
      forall kinds: seq<string> | Occurs(p.steps, kinds)
        ensures |Greedy(norm, p, kinds).at| == |p.steps|
      {
        AlikeCompletes(norm, p, kinds);
      }
    } else {
      var k: nat, j: nat :| k < j < |p.steps| && MaySkip(norm, p, k, j) && p.steps[j] != p.steps[k];
      DisturbedOccurs(p.steps, k, j);
      DisturbedLoses(norm, p, k, j);
    }
  }

  /** Skipping can lose a complete chain: against steps a, b, c the events a, c, b, c match two steps, not three. */
  lemma SkippingLosesChain(norm: string -> string, gap: real)
    ensures var p := Pattern(["a", "b", "c"], gap, 0, {}, true);
            var kinds := ["a", "c", "b", "c"];
            Greedy(norm, p, kinds).at == [0, 1] && Greedy(norm, Strict(p), kinds).at == [0, 2, 3]
  {
    var p := Pattern(["a", "b", "c"], gap, 0, {}, true);
    var kinds := ["a", "c", "b", "c"];
    assert kinds[..1] == ["a"] && kinds[..2] == ["a", "c"] && kinds[..3] == ["a", "c", "b"];
    assert kinds[..1][..0] == [] && kinds[..2][..1] == kinds[..1] && kinds[..3][..2] == kinds[..2];
    var q := Strict(p);
    assert Greedy(norm, p, kinds[..1]) == Matched([0], [0], 1);
    assert Greedy(norm, p, kinds[..2]) == Matched([0, 1], [0, 2], 3);
    assert Greedy(norm, p, kinds[..3]) == Matched([0, 1], [0, 2], 3);
    StrictTaken(norm, p, 0, "a");
    assert Greedy(norm, q, kinds[..1]) == Matched([0], [0], 1);
    StrictTaken(norm, p, 1, "c");
    assert Greedy(norm, q, kinds[..2]) == Matched([0], [0], 1);
    StrictTaken(norm, p, 1, "b");
    assert Greedy(norm, q, kinds[..3]) == Matched([0, 2], [0, 1], 2);
    StrictTaken(norm, p, 2, "c");
  }

  // ---------- the matcher as the loop it is ----------

  /** The look-ahead: the first later step of this type that only skippable steps stand before. */
  method LookAhead(norm: string -> string, p: Pattern, step: nat, kind: string) returns (j: nat)
    requires step < |p.steps|
    ensures j == Taken(norm, p, step, kind)
  {
    if kind == p.steps[step] {
      return step;
    }
    j := step + 1;
    while j < |p.steps|
      invariant step < j <= |p.steps|
      invariant forall k :: step <= k < j ==> p.steps[k] != kind
      invariant forall k :: step <= k < j - 1 ==> p.skipMissing || norm(p.steps[k]) in p.skippable
    {
      if norm(p.steps[j - 1]) in p.skippable || p.skipMissing {
        if kind == p.steps[j] {
          SeekIs(p.steps, step, kind, j);
          return;
        }
      } else {
        assert !MaySkip(norm, p, step, j);
        LaterBlocked(norm, p, step, j, kind);
        return |p.steps|;
      }
      j := j + 1;
    }
    SeekIs(p.steps, step, kind, j);
  }

  lemma SeekIs(steps: seq<string>, from: nat, kind: string, j: nat)
    requires from <= j <= |steps| && (j < |steps| ==> steps[j] == kind)
    requires forall k :: from <= k < j ==> steps[k] != kind
    ensures Seek(steps, from, kind) == j
  {}

  lemma LaterBlocked(norm: string -> string, p: Pattern, step: nat, j: nat, kind: string)
    requires step < j <= |p.steps| && !p.skipMissing && norm(p.steps[j - 1]) !in p.skippable
    requires forall k :: step <= k < j ==> p.steps[k] != kind
    ensures Taken(norm, p, step, kind) == |p.steps|
  {
    assert Seek(p.steps, step, kind) >= j;
    assert !MaySkip(norm, p, step, Seek(p.steps, step, kind));
  }

  method MatchPattern(norm: string -> string, p: Pattern, events: seq<Event>) returns (r: Outcome)
    ensures r == Match(norm, p, events)
  {
    if |events| < Needed(p) {
      return NoChain;
    }
    var kinds := KindsOf(norm, events);
    GreedyWitness(norm, p, kinds);
    var at := FindMatches(norm, p, kinds);
    if |at| < Needed(p) {
      return NoChain;
    }
    var es := PickEvents(events, at);
    var j := 1;
    while j < |es|
      invariant 1 <= j
      invariant forall k :: 0 < k < j && k < |es| ==> es[k].at - es[k - 1].at <= p.maxGap
    {
      if es[j].at - es[j - 1].at > p.maxGap {
        return NoChain;
      }
      j := j + 1;
    }
    if es == [] {
      return Failed;
    }
    return Chain(es);
  }

  method FindMatches(norm: string -> string, p: Pattern, kinds: seq<string>) returns (at: seq<nat>)
    ensures at == Greedy(norm, p, kinds).at
  {
    at := [];
    var step, i := 0, 0;
    while i < |kinds| && step < |p.steps|
      invariant 0 <= i <= |kinds|
      invariant at == Greedy(norm, p, kinds[..i]).at && step == Greedy(norm, p, kinds[..i]).step
    {
      assert kinds[..i + 1][..i] == kinds[..i];
      var j := LookAhead(norm, p, step, kinds[i]);
      if j < |p.steps| {
        at := at + [i];
        step := j + 1;
      }
      i := i + 1;
    }
    GreedyDone(norm, p, kinds, i);
  }

  /** Once every step is taken, later events change nothing. */
  lemma {:induction false} GreedyDone(norm: string -> string, p: Pattern, kinds: seq<string>, i: nat)
    requires i <= |kinds| && (i < |kinds| ==> Greedy(norm, p, kinds[..i]).step == |p.steps|)
    ensures Greedy(norm, p, kinds) == Greedy(norm, p, kinds[..i])
  {
    if i < |kinds| {
      var n := |kinds| - 1;
      assert kinds[..n][..i] == kinds[..i];
      GreedyDone(norm, p, kinds[..n], i);
    } else {
      assert kinds[..i] == kinds;
    }
  }
}
