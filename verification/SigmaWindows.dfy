/** Sliding aggregation windows of the Sigma detector, with their lazy cleanup. */
module SigmaWindows {
  import opened Common
  import opened TimeWindow

  /** An aggregating rule: its id and its timeframe in seconds. */
  datatype Rule = Rule(id: string, timeframe: int)

  datatype Op = Greater | GreaterEq | Equal | OtherOp

  datatype Func = Count | Avg | OtherFunc

  type Groups = map<string, seq<real>>

  type Windows = map<string, Groups>

  function GroupsOf(w: Windows, rule: string): Groups {
    if rule in w then w[rule] else map[]
  }

  function WindowOf(w: Windows, rule: string, group: string): seq<real> {
    if group in GroupsOf(w, rule) then GroupsOf(w, rule)[group] else []
  }

  /** `max(timeframes, default=300)` */
  function MaxTimeframe(rules: seq<Rule>): (m: int)
    ensures forall r :: r in rules ==> r.timeframe <= m
    ensures rules == [] ==> m == 300
    ensures rules != [] ==> exists r :: r in rules && r.timeframe == m
  {
    if rules == [] then 300
    else if |rules| == 1 then rules[0].timeframe
    else
      assert rules == [rules[0]] + rules[1..];
      Max(rules[0].timeframe, MaxTimeframe(rules[1..]))
  }

  // ---------- one check ----------

  /** The window of one rule and group after a check at `now`. */
  function Checked(w: Windows, r: Rule, group: string, now: real): seq<real> {
    DropFront(WindowOf(w, r.id, group) + [now], now - r.timeframe as real)
  }

  function AfterCheck(w: Windows, r: Rule, group: string, now: real): Windows {
    w[r.id := GroupsOf(w, r.id)[group := Checked(w, r, group, now)]]
  }

  /** Every entry weighs 1, so an average is 1 as soon as there is an entry. */
  function Aggregate(f: Func, n: nat): nat {
    if f == Avg then Min(n, 1) else n
  }

  predicate Fires(f: Func, op: Op, threshold: int, n: nat) {
    match op
    case GreaterEq => Aggregate(f, n) >= threshold
    case Equal => Aggregate(f, n) == threshold
    case _ => Aggregate(f, n) > threshold
  }

  /** When a rule fires on n entries, n counting the check itself: a count by its operator, greater-than where none is
      known, an average as if there were a single entry. */
  lemma FiresIff(f: Func, op: Op, threshold: int, n: nat)
    requires n >= 1
    ensures !f.Avg? && op.GreaterEq? ==> (Fires(f, op, threshold, n) <==> n >= threshold)
    ensures !f.Avg? && op.Equal? ==> (Fires(f, op, threshold, n) <==> n == threshold)
    ensures !f.Avg? && !op.GreaterEq? && !op.Equal? ==> (Fires(f, op, threshold, n) <==> n > threshold)
    ensures f.Avg? ==> (Fires(f, op, threshold, n) <==> Fires(Count, op, threshold, 1))
  {}

  // ---------- cleanup ----------

  function CleanGroups(g: Groups, cutoff: real): Groups {
    map k | k in g && DropFront(g[k], cutoff) != [] :: DropFront(g[k], cutoff)
  }

  function CleanAll(w: Windows, cutoff: real): Windows {
    map r | r in w && CleanGroups(w[r], cutoff) != map[] :: CleanGroups(w[r], cutoff)
  }

  function AfterCleanup(w: Windows, rules: seq<Rule>, now: real): Windows {
    CleanAll(w, now - MaxTimeframe(rules) as real)
  }

  lemma CleanWindow(w: Windows, cutoff: real, rule: string, group: string)
    ensures WindowOf(CleanAll(w, cutoff), rule, group) == DropFront(WindowOf(w, rule, group), cutoff)
  {
    if rule in w {
      var g := CleanGroups(w[rule], cutoff);
      if group in g { assert g != map[]; }
    }
  }

  // ---------- runs ----------

  datatype Event =
    | Check(rule: Rule, group: string, now: real)
    | Cleanup(now: real)

  function Apply(w: Windows, rules: seq<Rule>, e: Event): Windows {
    match e
    case Check(r, g, now) => AfterCheck(w, r, g, now)
    case Cleanup(now) => AfterCleanup(w, rules, now)
  }

  function Run(rules: seq<Rule>, es: seq<Event>): Windows {
    if es == [] then map[] else Apply(Run(rules, es[..|es| - 1]), rules, es[|es| - 1])
  }

  /** Times of all past checks of one rule and group; cleanups leave no trace here. */
  function Checks(es: seq<Event>, rule: string, group: string): seq<real> {
    if es == [] then []
    else
      var e := es[|es| - 1];
      Checks(es[..|es| - 1], rule, group)
      + (if e.Check? && e.rule.id == rule && e.group == group then [e.now] else [])
  }

  /** Rules that share an id, and so their windows, have the same timeframe. */
  ghost predicate SameFrames(rules: seq<Rule>) {
    forall r1, r2 :: r1 in rules && r2 in rules && r1.id == r2.id ==> r1.timeframe == r2.timeframe
  }

  /** A fixed rule set, and a clock that does not go back. */
  ghost predicate Timed(rules: seq<Rule>, es: seq<Event>) {
    && (forall e :: e in es && e.Check? ==> e.rule in rules)
    && (forall i, j :: 0 <= i < j < |es| ==> es[i].now <= es[j].now)
  }

  ghost predicate ValidRun(rules: seq<Rule>, es: seq<Event>) { SameFrames(rules) && Timed(rules, es) }

  ghost predicate Sane(w: Windows, clock: real) {
    forall r, g :: Ascending(WindowOf(w, r, g)) && UpTo(WindowOf(w, r, g), clock)
  }

  /** From `clock` on, the window of a rule answers every question about its own timeframe as the history does. */
  ghost predicate Agrees(w: Windows, rules: seq<Rule>, es: seq<Event>, clock: real) {
    forall r, g, c :: r in rules && c >= clock - r.timeframe as real ==>
      Since(WindowOf(w, r.id, g), c, false) == Since(Checks(es, r.id, g), c, false)
  }

  lemma ChecksStep(es: seq<Event>, e: Event, rule: string, group: string)
    ensures Checks(es + [e], rule, group) ==
      if e.Check? && e.rule.id == rule && e.group == group then Checks(es, rule, group) + [e.now]
      else Checks(es, rule, group)
  {
    assert (es + [e])[..|es|] == es;
    assert Checks(es, rule, group) + [] == Checks(es, rule, group);
  }

  lemma Later(w: Windows, rules: seq<Rule>, es: seq<Event>, now: real, clock: real)
    requires Sane(w, now) && Agrees(w, rules, es, now) && now <= clock
    ensures Sane(w, clock) && Agrees(w, rules, es, clock)
  {
    forall r, g
      ensures UpTo(WindowOf(w, r, g), clock)
    {
      assert UpTo(WindowOf(w, r, g), now);
    }
  }

  lemma CheckWindows(w: Windows, r: Rule, group: string, now: real, rule: string, g: string)
    ensures WindowOf(AfterCheck(w, r, group, now), rule, g) ==
      if rule == r.id && g == group then Checked(w, r, group, now) else WindowOf(w, rule, g)
  {}

  lemma CheckedFacts(w: Windows, r: Rule, group: string, now: real)
    requires Sane(w, now)
    ensures var ts := WindowOf(w, r.id, group) + [now];
      && Ascending(ts) && UpTo(ts, now)
      && Checked(w, r, group, now) == Since(ts, now - r.timeframe as real, false)
      && Ascending(Checked(w, r, group, now)) && UpTo(Checked(w, r, group, now), now)
  {
    var ts := WindowOf(w, r.id, group) + [now];
    assert UpTo(WindowOf(w, r.id, group), now);
    DropFrontIsSince(ts, now - r.timeframe as real);
    SinceKeeps(ts, now - r.timeframe as real, false, now);
  }

  lemma CheckKeeps(w: Windows, rules: seq<Rule>, es: seq<Event>, r: Rule, group: string, now: real)
    requires Sane(w, now) && Agrees(w, rules, es, now) && r in rules
    requires SameFrames(rules)
    ensures var w' := AfterCheck(w, r, group, now);
      Sane(w', now) && Agrees(w', rules, es + [Check(r, group, now)], now)
  {
    var w' := AfterCheck(w, r, group, now);
    var e := Check(r, group, now);
    CheckedFacts(w, r, group, now);
    forall q, g
      ensures Ascending(WindowOf(w', q, g)) && UpTo(WindowOf(w', q, g), now)
    {
      CheckWindows(w, r, group, now, q, g);
    }
    forall q, g, c | q in rules && c >= now - q.timeframe as real
      ensures Since(WindowOf(w', q.id, g), c, false) == Since(Checks(es + [e], q.id, g), c, false)
    {
      CheckWindows(w, r, group, now, q.id, g);
      ChecksStep(es, e, q.id, g);
      if q.id == r.id && g == group {
        SinceTwice(WindowOf(w, r.id, group) + [now], now - r.timeframe as real, c, false);
        SinceAppend(WindowOf(w, r.id, group), [now], c, false);
        SinceAppend(Checks(es, r.id, group), [now], c, false);
      }
    }
  }

  lemma CleanupKeeps(w: Windows, rules: seq<Rule>, es: seq<Event>, now: real)
    requires Sane(w, now) && Agrees(w, rules, es, now)
    ensures var w' := AfterCleanup(w, rules, now);
      Sane(w', now) && Agrees(w', rules, es + [Cleanup(now)], now)
  {
    var cutoff := now - MaxTimeframe(rules) as real;
    var w' := AfterCleanup(w, rules, now);
    forall r, g
      ensures Ascending(WindowOf(w', r, g)) && UpTo(WindowOf(w', r, g), now)
      ensures WindowOf(w', r, g) == Since(WindowOf(w, r, g), cutoff, false)
    {
      CleanWindow(w, cutoff, r, g);
      DropFrontIsSince(WindowOf(w, r, g), cutoff);
      SinceKeeps(WindowOf(w, r, g), cutoff, false, now);
    }
    forall q, g, c | q in rules && c >= now - q.timeframe as real
      ensures Since(WindowOf(w', q.id, g), c, false) == Since(Checks(es + [Cleanup(now)], q.id, g), c, false)
    {
      ChecksStep(es, Cleanup(now), q.id, g);
      SinceTwice(WindowOf(w, q.id, g), cutoff, c, false);
    }
  }

  lemma {:induction false} RunAgrees(rules: seq<Rule>, es: seq<Event>, clock: real)
    requires ValidRun(rules, es)
    requires forall i :: 0 <= i < |es| ==> es[i].now <= clock
    ensures Sane(Run(rules, es), clock) && Agrees(Run(rules, es), rules, es, clock)
  {
    if es != [] {
      var n := |es| - 1;
      var e := es[n];
      assert e in es && forall x :: x in es[..n] ==> x in es;
      RunAgrees(rules, es[..n], e.now);
      var w := Run(rules, es[..n]);
      assert es[..n] + [e] == es;
      match e {
        case Check(r, g, now) => CheckKeeps(w, rules, es[..n], r, g, now);
        case Cleanup(now) => CleanupKeeps(w, rules, es[..n], now);
      }
      Later(Run(rules, es), rules, es, e.now, clock);
    }
  }

  /** The window a check counts is exactly the history of that rule and group within the timeframe, this check
      included, whenever and however often cleanups ran before it. */
  lemma CleanupInvisible(rules: seq<Rule>, es: seq<Event>, r: Rule, group: string, now: real)
    requires ValidRun(rules, es) && r in rules && forall i :: 0 <= i < |es| ==> es[i].now <= now
    ensures Checked(Run(rules, es), r, group, now)
         == Since(Checks(es, r.id, group) + [now], now - r.timeframe as real, false)
  {
    var ts := WindowAgrees(rules, es, r, group, now);
    SameAppend(ts, Checks(es, r.id, group), now, now - r.timeframe as real);
  }

  lemma WindowAgrees(rules: seq<Rule>, es: seq<Event>, r: Rule, group: string, now: real) returns (ts: seq<real>)
    requires ValidRun(rules, es) && r in rules && forall i :: 0 <= i < |es| ==> es[i].now <= now
    ensures Since(ts, now - r.timeframe as real, false)
         == Since(Checks(es, r.id, group), now - r.timeframe as real, false)
    ensures Checked(Run(rules, es), r, group, now) == Since(ts + [now], now - r.timeframe as real, false)
  {
    ts := WindowOf(Run(rules, es), r.id, group);
    RunAgrees(rules, es, now);
    AgreesAt(Run(rules, es), rules, es, now, r, group, now - r.timeframe as real);
    CheckedIsSince(Run(rules, es), r, group, now);
  }

  lemma AgreesAt(w: Windows, rules: seq<Rule>, es: seq<Event>, clock: real, r: Rule, g: string, c: real)
    requires Agrees(w, rules, es, clock) && r in rules && c >= clock - r.timeframe as real
    ensures Since(WindowOf(w, r.id, g), c, false) == Since(Checks(es, r.id, g), c, false)
  {}

  lemma CheckedIsSince(w: Windows, r: Rule, group: string, now: real)
    requires Sane(w, now)
    ensures Checked(w, r, group, now) == Since(WindowOf(w, r.id, group) + [now], now - r.timeframe as real, false)
  {
    assert UpTo(WindowOf(w, r.id, group), now);
    DropFrontIsSince(WindowOf(w, r.id, group) + [now], now - r.timeframe as real);
  }

  lemma SameAppend(a: seq<real>, b: seq<real>, now: real, c: real)
    requires Since(a, c, false) == Since(b, c, false)
    ensures Since(a + [now], c, false) == Since(b + [now], c, false)
  {
    SinceAppend(a, [now], c, false);
    SinceAppend(b, [now], c, false);
  }

  /** Two runs that differ only in their cleanups give every later check the same window. */
  lemma CleanupsDoNotMatter(rules: seq<Rule>, es1: seq<Event>, es2: seq<Event>, r: Rule, group: string, now: real)
    requires ValidRun(rules, es1) && ValidRun(rules, es2) && r in rules
    requires forall i :: 0 <= i < |es1| ==> es1[i].now <= now
    requires forall i :: 0 <= i < |es2| ==> es2[i].now <= now
    requires Checks(es1, r.id, group) == Checks(es2, r.id, group)
    ensures Checked(Run(rules, es1), r, group, now) == Checked(Run(rules, es2), r, group, now)
  {
    CleanupInvisible(rules, es1, r, group, now);
    CleanupInvisible(rules, es2, r, group, now);
  }

  /** After a cleanup no rule is left without groups, and every surviving window is non-empty and recent. */
  lemma CleanupTidies(w: Windows, rules: seq<Rule>, now: real, clock: real)
    requires Sane(w, clock)
    ensures var w' := AfterCleanup(w, rules, now);
      && (forall r :: r in w' ==> w'[r] != map[])
      && (forall r, g :: r in w' && g in w'[r] ==>
            w'[r][g] != [] && forall i :: 0 <= i < |w'[r][g]| ==> w'[r][g][i] >= now - MaxTimeframe(rules) as real)
  {
    var cutoff := now - MaxTimeframe(rules) as real;
    var w' := AfterCleanup(w, rules, now);
    forall r, g | r in w' && g in w'[r]
      ensures w'[r][g] != [] && forall i :: 0 <= i < |w'[r][g]| ==> w'[r][g][i] >= cutoff
    {
      var ts := WindowOf(w, r, g);
      assert ts == w[r][g];
      DropFrontIsSince(ts, cutoff);
      SinceMembers(ts, cutoff, false);
      forall i | 0 <= i < |w'[r][g]|
        ensures w'[r][g][i] >= cutoff
      {
        assert w'[r][g][i] in Since(ts, cutoff, false);
      }
    }
  }

  /** A check at `now` counts just the checks of its rule's id and group within the rule's timeframe. */
  ghost predicate Exact(rules: seq<Rule>, es: seq<Event>, r: Rule, group: string, now: real) {
    Checked(Run(rules, es), r, group, now)
    == Since(Checks(es, r.id, group) + [now], now - r.timeframe as real, false)
  }

  /** A check of the shorter timeframe prunes what the longer one of the same id still needs: the check at the end
      counts two entries where three lie within its timeframe. */
  lemma SharedIdLosesCounts(rules: seq<Rule>, long: Rule, short: Rule, g: string)
    requires long in rules && short in rules && long.id == short.id && 0 <= short.timeframe < long.timeframe
    ensures var l := long.timeframe as real; var es := [Check(long, g, 0.0), Check(short, g, l)];
            Timed(rules, es) && !Exact(rules, es, long, g, l)
  {
    var l := long.timeframe as real;
    HistoryOfTwo(long, short, g, l);
    KeepsAll([0.0, l, l], 0.0);
    PrunedRun(rules, long, short, g);
  }

  lemma HistoryOfTwo(long: Rule, short: Rule, g: string, l: real)
    requires long.id == short.id
    ensures Checks([Check(long, g, 0.0), Check(short, g, l)], long.id, g) + [l] == [0.0, l, l]
  {
    var e1, e2 := Check(long, g, 0.0), Check(short, g, l);
    ChecksStep([], e1, long.id, g);
    ChecksStep([e1], e2, long.id, g);
    assert [] + [e1] == [e1] && [e1] + [e2] == [e1, e2];
    assert [] + [0.0] == [0.0] && [0.0] + [l] + [l] == [0.0, l, l];
  }

  lemma {:induction false} KeepsAll(ts: seq<real>, c: real)
    requires forall i :: 0 <= i < |ts| ==> ts[i] >= c
    ensures Since(ts, c, false) == ts
  {
    if ts != [] {
      KeepsAll(ts[1..], c);
      assert [ts[0]] + ts[1..] == ts;
    }
  }

  lemma RunStep(rules: seq<Rule>, es: seq<Event>, e: Event)
    ensures Run(rules, es + [e]) == Apply(Run(rules, es), rules, e)
  {
    assert (es + [e])[..|es|] == es;
  }

  lemma PrunedRun(rules: seq<Rule>, long: Rule, short: Rule, g: string)
    requires long.id == short.id && 0 <= short.timeframe < long.timeframe
    ensures var l := long.timeframe as real;
            |Checked(Run(rules, [Check(long, g, 0.0), Check(short, g, l)]), long, g, l)| == 2
  {
    var l := long.timeframe as real;
    var e1, e2 := Check(long, g, 0.0), Check(short, g, l);
    RunStep(rules, [], e1);
    RunStep(rules, [e1], e2);
    assert [] + [e1] == [e1] && [e1] + [e2] == [e1, e2];
    CheckWindows(Run(rules, []), long, g, 0.0, long.id, g);
    assert [] + [0.0] == [0.0] && DropFront([0.0], -l) == [0.0];
    CheckWindows(Run(rules, [e1]), short, g, l, long.id, g);
    DropsFirst(0.0, l, l - short.timeframe as real);
    assert [l] + [l] == [l, l] && DropFront([l, l], 0.0) == [l, l];
  }

  lemma DropsFirst(a: real, b: real, c: real)
    requires a < c <= b
    ensures DropFront([a] + [b], c) == [b]
  {
    assert ([a] + [b])[1..] == [b];
    assert DropFront([b], c) == [b];
  }

  /** No check of any run ever miscounts if and only if rules that share an id have the same timeframe. */
  lemma ChecksExactIff(rules: seq<Rule>)
    requires forall r :: r in rules ==> r.timeframe >= 0
    ensures (forall es: seq<Event>, r: Rule, group: string, now: real ::
               Timed(rules, es) && r in rules && (forall i :: 0 <= i < |es| ==> es[i].now <= now)
               ==> Exact(rules, es, r, group, now))
            <==> SameFrames(rules)
  {
    if SameFrames(rules) {
      forall es: seq<Event>, r: Rule, group: string, now: real |
        Timed(rules, es) && r in rules && (forall i :: 0 <= i < |es| ==> es[i].now <= now)
        ensures Exact(rules, es, r, group, now)
      {
        CleanupInvisible(rules, es, r, group, now);
      }
    } else {
      var long, short :| long in rules && short in rules && long.id == short.id && short.timeframe < long.timeframe;
      SharedIdLosesCounts(rules, long, short, "");
    }
  }

  // ---------- the detector object ----------

  /** Rules in `todo` are untouched, the others are as a full cleanup leaves them. */
  ghost predicate PartlyClean(w0: Windows, w: Windows, todo: set<string>, cutoff: real) {
    && (forall r :: r in w ==> r in w0)
    && (forall r :: r in w0 && r in todo ==> r in w && w[r] == w0[r])
    && (forall r :: r in w0 && r !in todo ==>
          if CleanGroups(w0[r], cutoff) == map[] then r !in w else r in w && w[r] == CleanGroups(w0[r], cutoff))
  }

  lemma CleanDone(w0: Windows, w: Windows, cutoff: real)
    requires PartlyClean(w0, w, {}, cutoff)
    ensures w == CleanAll(w0, cutoff)
  {
    var w' := CleanAll(w0, cutoff);
    forall r
      ensures r in w <==> r in w'
      ensures r in w ==> w[r] == w'[r]
    {
      if r in w0 {
        assert r !in {};
      }
    }
  }

  class SigmaDetector {
    const rules: seq<Rule>
    const interval: real
    var windows: Windows
    var lastCleanup: real

    constructor (rules: seq<Rule>, interval: real)
      ensures windows == map[] && this.rules == rules && this.interval == interval && lastCleanup == 0.0
    {
      this.rules, this.interval := rules, interval;
      windows, lastCleanup := map[], 0.0;
    }

    method CheckAggregation(r: Rule, f: Func, op: Op, threshold: int, group: string, now: real) returns (fires: bool)
      modifies this`windows
      ensures windows == AfterCheck(old(windows), r, group, now)
      ensures fires == Fires(f, op, threshold, |Checked(old(windows), r, group, now)|)
    {
      var window := WindowOf(windows, r.id, group) + [now];
      var cutoff := now - r.timeframe as real;
      while window != [] && window[0] < cutoff
        invariant DropFront(window, cutoff) == Checked(windows, r, group, now)
        decreases |window|
      {
        window := window[1..];
      }
      windows := windows[r.id := GroupsOf(windows, r.id)[group := window]];
      fires := Fires(f, op, threshold, |window|);
    }

    method CleanRule(groups: Groups, cutoff: real) returns (r: Groups)
      ensures r == CleanGroups(groups, cutoff)
    {
      r := groups;
      var keys := groups.Keys;
      while keys != {}
        invariant keys <= groups.Keys
        invariant forall k :: k in keys ==> k in r && r[k] == groups[k]
        invariant forall k :: k in r && k !in keys ==>
                    k in groups && DropFront(groups[k], cutoff) != [] && r[k] == DropFront(groups[k], cutoff)
        invariant forall k :: k in groups && k !in keys && DropFront(groups[k], cutoff) != [] ==> k in r
        decreases keys
      {
        var k :| k in keys;
        var window := r[k];
        while window != [] && window[0] < cutoff
          invariant DropFront(window, cutoff) == DropFront(groups[k], cutoff)
          decreases |window|
        {
          window := window[1..];
        }
        if window == [] {
          r := r - {k};
        } else {
          r := r[k := window];
        }
        keys := keys - {k};
      }
    }

    method CleanOne(ghost w0: Windows, ghost ids: set<string>, id: string, cutoff: real)
      requires id in ids && ids <= w0.Keys && PartlyClean(w0, windows, ids, cutoff)
      modifies this`windows
      ensures PartlyClean(w0, windows, ids - {id}, cutoff)
    {
      var groups := CleanRule(windows[id], cutoff);
      if groups == map[] {
        windows := windows - {id};
      } else {
        windows := windows[id := groups];
      }
    }

    method CleanupWindows(now: real)
      modifies this`windows
      ensures windows == AfterCleanup(old(windows), rules, now)
    {
      var cutoff := now - MaxTimeframe(rules) as real;
      ghost var w0 := windows;
      var ids := windows.Keys;
      while ids != {}
        invariant ids <= w0.Keys
        invariant PartlyClean(w0, windows, ids, cutoff)
        decreases ids
      {
        var id :| id in ids;
        CleanOne(w0, ids, id, cutoff);
        ids := ids - {id};
      }
      CleanDone(w0, windows, cutoff);
    }

    method MaybeCleanup(now: real)
      modifies this`windows, this`lastCleanup
      ensures windows == if now - old(lastCleanup) < interval then old(windows)
                         else AfterCleanup(old(windows), rules, now)
      ensures lastCleanup == if now - old(lastCleanup) < interval then old(lastCleanup) else now
    {
      if now - lastCleanup < interval {
        return;
      }
      lastCleanup := now;
      CleanupWindows(now);
    }
  }
}
