/** Statistical baselines: hourly counters with multiplicative decay, the deviation of the current hour from the others,
    and the weighted anomaly score. The square root is an uninterpreted function. */
module Baseline {

  const HOURS: nat := 24

  datatype Entity = Entity(hourly: seq<nat>, total: nat)

  function Repeat(v: nat, n: nat): (r: seq<nat>)
    ensures |r| == n && forall i :: 0 <= i < n ==> r[i] == v
  {
    if n == 0 then [] else Repeat(v, n - 1) + [v]
  }

  const ZEROS: seq<nat> := Repeat(0, HOURS)

  const EMPTY: Entity := Entity(ZEROS, 0)

  function Sum(s: seq<nat>): nat {
    if s == [] then 0 else Sum(s[..|s| - 1]) + s[|s| - 1]
  }

  lemma {:induction false} SumUpdate(s: seq<nat>, i: nat, v: nat)
    requires i < |s|
    ensures Sum(s[i := v]) + s[i] == Sum(s) + v
  {
    var n := |s| - 1;
    var t := s[i := v];
    if i < n {
      SumUpdate(s[..n], i, v);
      assert t[..n] == s[..n][i := v];
    } else {
      assert t[..n] == s[..n];
    }
  }

  lemma {:induction false} SumZeros(n: nat)
    ensures Sum(Repeat(0, n)) == 0
  {
    if n > 0 { SumZeros(n - 1); }
  }

  ghost predicate Valid(b: Entity) { |b.hourly| == HOURS && Sum(b.hourly) <= b.total }

  function Update(b: Entity, hour: int): Entity
    requires |b.hourly| == HOURS
  {
    Entity(b.hourly[hour % 24 := b.hourly[hour % 24] + 1], b.total + 1)
  }

  function Clamp01(f: real): (r: real)
    ensures 0.0 <= r <= 1.0
  {
    if f < 0.0 then 0.0 else if f > 1.0 then 1.0 else f
  }

  /** `int(c * factor)` */
  function Scale(c: nat, f: real): nat
    requires 0.0 <= f
  {
    (c as real * f).Floor
  }

  function Scaled(s: seq<nat>, f: real): (r: seq<nat>)
    requires 0.0 <= f
    ensures |r| == |s| && forall i :: 0 <= i < |r| ==> r[i] == Scale(s[i], f)
  {
    seq(|s|, i requires 0 <= i < |s| => Scale(s[i], f))
  }

  function Decay(b: Entity, factor: real): Entity {
    var f := Clamp01(factor);
    Entity(Scaled(b.hourly, f), Scale(b.total, f))
  }

  // ---------- the counters never exceed the total ----------

  lemma ScaleSubadditive(a: nat, b: nat, f: real)
    requires 0.0 <= f
    ensures Scale(a, f) + Scale(b, f) <= Scale(a + b, f)
  {
    assert (a + b) as real * f == a as real * f + b as real * f;
  }

  lemma ScaleMonotone(a: nat, b: nat, f: real)
    requires 0.0 <= f && a <= b
    ensures Scale(a, f) <= Scale(b, f)
  {
    ScaleSubadditive(a, b - a, f);
  }

  lemma {:induction false} SumScaled(s: seq<nat>, f: real)
    requires 0.0 <= f
    ensures Sum(Scaled(s, f)) <= Scale(Sum(s), f)
  {
    if s != [] {
      var n := |s| - 1;
      SumScaled(s[..n], f);
      assert Scaled(s, f)[..n] == Scaled(s[..n], f);
      ScaleSubadditive(Sum(s[..n]), s[n], f);
    }
  }

  datatype Op = Seen(hour: int) | Decayed(factor: real)

  function Apply(b: Entity, op: Op): Entity
    requires |b.hourly| == HOURS
  {
    match op
    case Seen(hour) => Update(b, hour)
    case Decayed(factor) => Decay(b, factor)
  }

  function Run(b: Entity, ops: seq<Op>): (r: Entity)
    requires |b.hourly| == HOURS
    ensures |r.hourly| == HOURS
  {
    if ops == [] then b else Apply(Run(b, ops[..|ops| - 1]), ops[|ops| - 1])
  }

  lemma RunStep(b: Entity, ops: seq<Op>, op: Op)
    requires |b.hourly| == HOURS
    ensures Run(b, ops + [op]) == Apply(Run(b, ops), op)
  {
    assert (ops + [op])[..|ops|] == ops;
  }

  lemma StepKeepsValid(b: Entity, op: Op)
    requires Valid(b)
    ensures Valid(Apply(b, op))
  {
    match op
    case Seen(hour) => SumUpdate(b.hourly, hour % 24, b.hourly[hour % 24] + 1);
    case Decayed(factor) =>
      SumScaled(b.hourly, Clamp01(factor));
      ScaleMonotone(Sum(b.hourly), b.total, Clamp01(factor));
  }

  /** Over every run of updates and decays by any factors, the hourly counters sum to at most the total, so the count of
      the other hours is never negative. */
  lemma {:induction false} CountersWithinTotal(ops: seq<Op>)
    ensures Valid(Run(EMPTY, ops))
  {
    if ops == [] {
      SumZeros(HOURS);
    } else {
      CountersWithinTotal(ops[..|ops| - 1]);
      StepKeepsValid(Run(EMPTY, ops[..|ops| - 1]), ops[|ops| - 1]);
    }
  }

  /** Between decays the counters are exact: the hour's counter has gone up by the events of that hour, the total by
      all. */
  lemma {:induction false} CountsExact(b: Entity, ops: seq<Op>, h: nat)
    requires |b.hourly| == HOURS && h < HOURS
    requires forall i :: 0 <= i < |ops| ==> ops[i].Seen?
    ensures Run(b, ops).total == b.total + |ops|
    ensures Run(b, ops).hourly[h] == b.hourly[h] + |HourAt(ops, h)|
  {
    if ops != [] {
      var n := |ops| - 1;
      CountsExact(b, ops[..n], h);
      HourStep(ops, h);
    } else {
      assert HourAt(ops, h) == {};
    }
  }

  function HourAt(ops: seq<Op>, h: nat): set<int> {
    set i | 0 <= i < |ops| && ops[i].Seen? && ops[i].hour % 24 == h
  }

  lemma HourStep(ops: seq<Op>, h: nat)
    requires ops != [] && ops[|ops| - 1].Seen?
    ensures |HourAt(ops, h)| == |HourAt(ops[..|ops| - 1], h)| + if ops[|ops| - 1].hour % 24 == h then 1 else 0
  {
    var n := |ops| - 1;
    assert HourAt(ops, h) == if ops[n].hour % 24 == h then HourAt(ops[..n], h) + {n} else HourAt(ops[..n], h);
  }

  /** A decay by a factor in 0..1 leaves each counter the whole part of its share. */
  lemma DecayIs(b: Entity, f: real, i: nat)
    requires 0.0 <= f <= 1.0 && i < |b.hourly|
    ensures Decay(b, f).total as real <= b.total as real * f < Decay(b, f).total as real + 1.0
    ensures Decay(b, f).hourly[i] as real <= b.hourly[i] as real * f < Decay(b, f).hourly[i] as real + 1.0
  {}

  lemma {:induction false} OneWithinSum(s: seq<nat>, i: nat)
    requires i < |s|
    ensures s[i] <= Sum(s)
  {
    if i < |s| - 1 { OneWithinSum(s[..|s| - 1], i); }
  }

  // ---------- how far they drift apart ----------

  function Drift(b: Entity): int { b.total - Sum(b.hourly) }

  lemma HalfScale(c: nat)
    ensures Scale(c, 0.5) == c / 2
  {
    var k := c / 2;
    assert c as real * 0.5 == k as real + (c % 2) as real * 0.5;
  }

  lemma {:induction false} SumHalves(s: seq<nat>)
    ensures 2 * Sum(Scaled(s, 0.5)) >= Sum(s) - |s|
  {
    if s != [] {
      var n := |s| - 1;
      SumHalves(s[..n]);
      assert Scaled(s, 0.5)[..n] == Scaled(s[..n], 0.5);
      HalfScale(s[n]);
    }
  }

  /** With the default factor of one half, the total exceeds the counters by at most 23, however long the run. */
  lemma {:induction false} DriftBound(ops: seq<Op>)
    requires forall i :: 0 <= i < |ops| && ops[i].Decayed? ==> ops[i].factor == 0.5
    ensures 0 <= Drift(Run(EMPTY, ops)) <= 23
  {
    CountersWithinTotal(ops);
    if ops == [] {
      SumZeros(HOURS);
    } else {
      var n := |ops| - 1;
      DriftBound(ops[..n]);
      var b := Run(EMPTY, ops[..n]);
      match ops[n]
      case Seen(hour) => SumUpdate(b.hourly, hour % 24, b.hourly[hour % 24] + 1);
      case Decayed(factor) =>
        assert Clamp01(factor) == 0.5;
        SumHalves(b.hourly);
        HalfScale(b.total);
    }
  }

  /** One event in each of the first n hours. */
  function Day(n: nat): seq<Op> { if n == 0 then [] else Day(n - 1) + [Seen(n - 1)] }

  /** One event in every hour, then a decay. */
  function FullDay(): seq<Op> { Day(HOURS) + [Decayed(0.5)] }

  lemma DayStep(b: Entity, n: nat)
    requires |b.hourly| == HOURS && n > 0
    ensures Run(b, Day(n)) == Update(Run(b, Day(n - 1)), n - 1)
  {
    RunStep(b, Day(n - 1), Seen(n - 1));
  }

  lemma {:induction false} DayCounts(b: Entity, n: nat)
    requires |b.hourly| == HOURS && n <= HOURS && forall i :: 0 <= i < HOURS ==> b.hourly[i] == 0
    ensures Run(b, Day(n)).total == b.total + n
    ensures forall i :: 0 <= i < HOURS ==> Run(b, Day(n)).hourly[i] == if i < n then 1 else 0
  {
    if n > 0 {
      DayCounts(b, n - 1);
      DayStep(b, n);
    }
  }

  lemma HalvesGone(s: seq<nat>)
    requires |s| == HOURS && forall i :: 0 <= i < HOURS ==> s[i] == 1
    ensures Scaled(s, 0.5) == ZEROS
  {
    HalfScale(1);
  }

  /** After such a day the counters are back at zero and half of the total stays. */
  lemma FullDayLeaves(total: nat)
    ensures Run(Entity(ZEROS, total), FullDay()) == Entity(ZEROS, (total + HOURS) / 2)
  {
    var b := Entity(ZEROS, total);
    DayCounts(b, HOURS);
    RunStep(b, Day(HOURS), Decayed(0.5));
    HalfScale(total + HOURS);
    HalvesGone(Run(b, Day(HOURS)).hourly);
  }

  /** The bound is reached: five such days lead from nothing to a drift of 23. */
  lemma DriftBoundTight() returns (b: seq<Entity>)
    ensures |b| == 6 && b[0] == EMPTY && Drift(b[5]) == 23
    ensures forall i :: 0 <= i < 5 ==> |b[i].hourly| == HOURS && b[i + 1] == Run(b[i], FullDay())
  {
    FullDayLeaves(0);
    FullDayLeaves(12);
    FullDayLeaves(18);
    FullDayLeaves(21);
    FullDayLeaves(22);
    SumZeros(HOURS);
    b := [EMPTY, Entity(ZEROS, 12), Entity(ZEROS, 18), Entity(ZEROS, 21), Entity(ZEROS, 22), Entity(ZEROS, 23)];
  }

  // ---------- deviation ----------

  function RealMax(a: real, b: real): real { if a >= b then a else b }

  function RealMin(a: real, b: real): real { if a <= b then a else b }

  function Deviation(root: real -> real, b: Entity, hour: int): real
    requires |b.hourly| == HOURS
  {
    if b.total < 3 then 0.0
    else
      var current := b.hourly[hour % 24];
      var others := b.total - current;
      var mean := if others > 0 then others as real / 23.0 else 0.0;
      if mean == 0.0 then current as real
      else if current as real <= mean then 0.0
      else RealMin((current as real - mean) / RealMax(1.0, root(mean)), 10.0)
  }

  lemma QuotientPositive(a: real, b: real)
    requires a > 0.0 && b >= 1.0
    ensures a / b > 0.0
  {}

  /** The deviation is never negative, and it passes its cap of 10 exactly when all counted activity, more than 10
      events, falls into the current hour. */
  lemma DeviationUncappedIff(root: real -> real, b: Entity, hour: int)
    requires Valid(b)
    ensures Deviation(root, b, hour) >= 0.0
    ensures Deviation(root, b, hour) > 10.0 <==> b.total == b.hourly[hour % 24] && b.total > 10
  {
    OneWithinSum(b.hourly, hour % 24);
    var current := b.hourly[hour % 24];
    var mean := (b.total - current) as real / 23.0;
    if b.total >= 3 && b.total > current && current as real > mean {
      QuotientPositive(current as real - mean, RealMax(1.0, root(mean)));
    }
  }

  /** The deviation: none under three events or while the hour is not above the mean of the other 23; the plain count
      when there are no others; else how far the hour is above that mean, in units of the mean's root, at least 1. */
  lemma DeviationIs(root: real -> real, b: Entity, hour: int)
    requires Valid(b)
    ensures var n := b.hourly[hour % 24]; var others := b.total - n; var d := Deviation(root, b, hour);
            && (b.total < 3 ==> d == 0.0)
            && (b.total >= 3 && others == 0 ==> d == n as real)
            && (b.total >= 3 && others > 0 && 23 * n <= others ==> d == 0.0)
            && (b.total >= 3 && others > 0 && 23 * n > others ==>
                  var unit := RealMax(1.0, root(others as real / 23.0));
                  d == 10.0 || (d < 10.0 && d * unit == n as real - others as real / 23.0))
            && (d == 10.0 && others > 0 ==>
                  n as real - others as real / 23.0 >= 10.0 * RealMax(1.0, root(others as real / 23.0)))
  {
    OneWithinSum(b.hourly, hour % 24);
    var n := b.hourly[hour % 24];
    var others := b.total - n;
    if b.total >= 3 && others > 0 && 23 * n > others {
      var mean := others as real / 23.0;
      QuotientTimes(n as real - mean, RealMax(1.0, root(mean)));
    }
  }

  lemma QuotientTimes(a: real, b: real)
    requires b >= 1.0
    ensures (a / b) * b == a
    ensures a / b >= 10.0 ==> a >= 10.0 * b
  {
    var q := a / b;
    assert q * b == a;
    if q >= 10.0 {
      assert (q - 10.0) * b >= 0.0;
    }
  }

  // ---------- the anomaly score ----------

  datatype EntityType = SrcIp | DstIp | EventType

  datatype Event = Event(kind: string, severity: string, src: string, dst: string, hour: nat)

  datatype State = State(baselines: map<(EntityType, string), Entity>, hourly: seq<nat>, kinds: map<string, nat>)

  datatype Report = Report(score: real, isAnomaly: bool, sigma: real)

  ghost predicate Consistent(s: State) {
    && |s.hourly| == HOURS
    && (forall k :: k in s.kinds ==> s.kinds[k] <= Sum(s.hourly))
    && forall k :: k in s.baselines ==> Valid(s.baselines[k])
  }

  ghost predicate Shaped(s: State) {
    |s.hourly| == HOURS && forall k :: k in s.baselines ==> |s.baselines[k].hourly| == HOURS
  }

  function Get(s: State, t: EntityType, key: string): Entity {
    if (t, key) in s.baselines then s.baselines[(t, key)] else EMPTY
  }

  function Touch(s: State, t: EntityType, key: string, hour: nat): State
    requires Shaped(s)
  {
    s.(baselines := s.baselines[(t, key) := Update(Get(s, t, key), hour)])
  }

  function Count(s: State, e: Event): State
    requires Shaped(s)
  {
    s.(hourly := s.hourly[e.hour % 24 := s.hourly[e.hour % 24] + 1],
       kinds := s.kinds[e.kind := (if e.kind in s.kinds then s.kinds[e.kind] else 0) + 1])
  }

  function Rarity(s: State, kind: string): real {
    var total := Sum(s.hourly);
    if total < 10 then 0.0
    else
      var n := if kind in s.kinds then s.kinds[kind] else 0;
      RealMin(RealMax(0.0, 1.0 - n as real / total as real * 100.0), 1.0)
  }

  function Temporal(hour: nat): real {
    if hour <= 5 then 0.4 else if hour == 22 || hour == 23 then 0.2 else 0.0
  }

  function SeverityWeight(s: string): real {
    if s == "critical" then 1.0 else if s == "high" then 0.6 else if s == "medium" then 0.3
    else if s == "info" then -0.05 else 0.0
  }

  function Positive(x: real): real { if x > 0.0 then x else 0.0 }

  function Judge(sigma: real, rarity: real, temporal: real, severity: real): Report {
    var total := (if sigma > 0.0 then RealMin(1.0, sigma / 5.0) * 0.35 else 0.0)
               + Positive(rarity) * 0.20 + Positive(temporal) * 0.15 + Positive(severity) * 0.25;
    var score := RealMin(1.0, RealMax(0.0, total));
    Report(score, score > 0.6 || Positive(sigma) > 3.0, Positive(sigma))
  }

  /** The state after an event: the global counts, then the baselines of source, destination and type. */
  function Learned(s: State, e: Event): State
    requires Shaped(s)
  {
    var s1 := Count(s, e);
    var s2 := if e.src == "" then s1 else Touch(s1, SrcIp, e.src, e.hour);
    var s3 := if e.dst == "" then s2 else Touch(s2, DstIp, e.dst, e.hour);
    Touch(s3, EventType, e.kind, e.hour)
  }

  function Analyze(root: real -> real, s: State, e: Event): (State, Report)
    requires Shaped(s)
  {
    var s1 := Count(s, e);
    var sigma := if e.src == "" then 0.0 else Deviation(root, Get(s1, SrcIp, e.src), e.hour);
    (Learned(s, e),
     Judge(sigma, Rarity(s1, e.kind), Temporal(e.hour), SeverityWeight(e.severity)))
  }

  lemma TouchConsistent(s: State, t: EntityType, key: string, hour: nat)
    requires Consistent(s)
    ensures Consistent(Touch(s, t, key, hour))
  {
    var b := Get(s, t, key);
    SumZeros(HOURS);
    SumUpdate(b.hourly, hour % 24, b.hourly[hour % 24] + 1);
  }

  /** Analysing an event keeps every baseline's counters within its total, and every type's count within the global one,
      so a type's share never exceeds one. */
  lemma AnalyzeConsistent(root: real -> real, s: State, e: Event)
    requires Consistent(s)
    ensures Consistent(Analyze(root, s, e).0)
  {
    SumUpdate(s.hourly, e.hour % 24, s.hourly[e.hour % 24] + 1);
    var s1 := Count(s, e);
    var s2 := if e.src == "" then s1 else Touch(s1, SrcIp, e.src, e.hour);
    if e.src != "" { TouchConsistent(s1, SrcIp, e.src, e.hour); }
    if e.dst != "" { TouchConsistent(s2, DstIp, e.dst, e.hour); }
    TouchConsistent(if e.dst == "" then s2 else Touch(s2, DstIp, e.dst, e.hour), EventType, e.kind, e.hour);
  }

  lemma RarityUnit(s: State, kind: string)
    ensures 0.0 <= Rarity(s, kind) <= 1.0
  {}

  /** No event scores above 0.86; without enough deviation of its source, more than 9/7 sigma, none is an anomaly, and
      more than 3 sigma always make one. */
  lemma OnlyDeviationAlarms(sigma: real, rarity: real, hour: nat, severity: string)
    requires sigma >= 0.0 && 0.0 <= rarity <= 1.0
    ensures var r := Judge(sigma, rarity, Temporal(hour), SeverityWeight(severity));
            && 0.0 <= r.score <= 0.86
            && (r.isAnomaly ==> sigma > 9.0 / 7.0)
            && (sigma > 3.0 ==> r.isAnomaly)
  {}

  /** The score itself: at most 0.35 for the deviation, full at 5 sigma, 0.2 for rarity, by night 0.06 until six and
      0.03 from ten, and up to 0.25 for severity. */
  lemma ScoreIs(sigma: real, rarity: real, hour: nat, severity: string)
    requires sigma >= 0.0 && 0.0 <= rarity <= 1.0
    ensures var r := Judge(sigma, rarity, Temporal(hour), SeverityWeight(severity));
            var night := if hour <= 5 then 0.06 else if hour == 22 || hour == 23 then 0.03 else 0.0;
            var weight := if severity == "critical" then 0.25 else if severity == "high" then 0.15
                          else if severity == "medium" then 0.075 else 0.0;
            && r.score == (if sigma >= 5.0 then 0.35 else sigma * 0.07) + rarity * 0.2 + night + weight
            && r.sigma == sigma && (r.isAnomaly <==> r.score > 0.6 || sigma > 3.0)
  {}

  /** A type is rare by its share of all events: fully when it was never seen, less by the percent, not at all from one
      percent on or under ten events. */
  lemma RarityIs(s: State, kind: string)
    ensures var total, n := Sum(s.hourly), if kind in s.kinds then s.kinds[kind] else 0;
            && (total < 10 || 100 * n >= total ==> Rarity(s, kind) == 0.0)
            && (total >= 10 && 100 * n < total ==> Rarity(s, kind) * total as real == total as real - 100.0 * n as real)
  {
    var total, n := Sum(s.hourly), if kind in s.kinds then s.kinds[kind] else 0;
    if total >= 10 {
      ShareOf(n, total);
    }
  }

  lemma ShareOf(n: nat, total: nat)
    requires total > 0
    ensures var x := 1.0 - n as real / total as real * 100.0;
            x * total as real == total as real - 100.0 * n as real && x <= 1.0 && (x <= 0.0 <==> 100 * n >= total)
  {
    var q := n as real / total as real;
    assert q * total as real == n as real;
    var x := 1.0 - q * 100.0;
    assert x * total as real == total as real - 100.0 * n as real;
    if x > 0.0 {
      assert x * total as real > 0.0;
    } else {
      assert x * total as real <= 0.0;
    }
  }

  lemma TouchIs(s: State, t: EntityType, key: string, hour: nat, k: (EntityType, string))
    requires Shaped(s)
    ensures var r := Touch(s, t, key, hour);
            && Shaped(r) && r.hourly == s.hourly && r.kinds == s.kinds
            && Get(r, k.0, k.1) == if k == (t, key) then Update(Get(s, t, key), hour) else Get(s, k.0, k.1)
  {}

  /** What analysing an event adds: one to the counts of its hour and its type, one event to the baselines of its type
      and of each address it has, and nothing to any other. */
  lemma AnalyzeAdds(s: State, e: Event, k: (EntityType, string))
    requires Shaped(s)
    ensures var t := Learned(s, e);
            && t.hourly == s.hourly[e.hour % 24 := s.hourly[e.hour % 24] + 1]
            && t.kinds == s.kinds[e.kind := (if e.kind in s.kinds then s.kinds[e.kind] else 0) + 1]
            && Get(t, k.0, k.1) == if Concerns(e, k) then Update(Get(s, k.0, k.1), e.hour) else Get(s, k.0, k.1)
  {
    var s1 := Count(s, e);
    var s2 := if e.src == "" then s1 else Touch(s1, SrcIp, e.src, e.hour);
    if e.src != "" { TouchIs(s1, SrcIp, e.src, e.hour, k); }
    var s3 := if e.dst == "" then s2 else Touch(s2, DstIp, e.dst, e.hour);
    if e.dst != "" { TouchIs(s2, DstIp, e.dst, e.hour, k); }
    TouchIs(s3, EventType, e.kind, e.hour, k);
  }

  predicate Concerns(e: Event, k: (EntityType, string)) {
    match k.0
    case SrcIp => k.1 == e.src && e.src != ""
    case DstIp => k.1 == e.dst && e.dst != ""
    case EventType => k.1 == e.kind
  }

  /** An event without a source address is never an anomaly, however severe or rare. */
  lemma NoSourceNoAnomaly(root: real -> real, s: State, e: Event)
    requires Shaped(s) && e.src == ""
    ensures !Analyze(root, s, e).1.isAnomaly
  {
    RarityUnit(Count(s, e), e.kind);
    OnlyDeviationAlarms(0.0, Rarity(Count(s, e), e.kind), e.hour, e.severity);
  }

  // ---------- the detector itself ----------

  class AnomalyDetector {
    var baselines: map<(EntityType, string), Entity>
    var hourly: seq<nat>
    var kinds: map<string, nat>

    constructor ()
      ensures Now() == State(map[], ZEROS, map[]) && Consistent(Now())
    {
      baselines, hourly, kinds := map[], ZEROS, map[];
    }

    ghost function Now(): State
      reads this
    {
      State(baselines, hourly, kinds)
    }

    method UpdateBaseline(t: EntityType, key: string, hour: nat)
      requires Shaped(Now())
      modifies this`baselines
      ensures Now() == Touch(old(Now()), t, key, hour) && Shaped(Now())
    {
      var b := if (t, key) in baselines then baselines[(t, key)] else EMPTY;
      var h := b.hourly[hour % 24] + 1;
      baselines := baselines[(t, key) := Entity(b.hourly[hour % 24 := h], b.total + 1)];
    }

    /** Decay never creates or deletes an entity; an unknown one is reported and left alone. */
    method DecayEntity(t: EntityType, key: string, factor: real) returns (known: bool)
      requires Consistent(Now())
      modifies this`baselines
      ensures Consistent(Now()) && baselines.Keys == old(baselines).Keys
      ensures known <==> (t, key) in old(baselines)
      ensures baselines == if known then old(baselines)[(t, key) := Decay(old(baselines)[(t, key)], factor)]
                           else old(baselines)
    {
      if (t, key) !in baselines {
        return false;
      }
      var b := baselines[(t, key)];
      StepKeepsValid(b, Decayed(factor));
      var f := Clamp01(factor);
      baselines := baselines[(t, key) := Entity(Scaled(b.hourly, f), Scale(b.total, f))];
      return true;
    }

    method CountEvent(e: Event)
      requires Shaped(Now())
      modifies this`hourly, this`kinds
      ensures Now() == Count(old(Now()), e) && Shaped(Now())
    {
      hourly := hourly[e.hour % 24 := hourly[e.hour % 24] + 1];
      kinds := kinds[e.kind := (if e.kind in kinds then kinds[e.kind] else 0) + 1];
    }

    method CheckSource(root: real -> real, e: Event) returns (sigma: real)
      requires Shaped(Now()) && e.src != ""
      modifies this`baselines
      ensures sigma == Deviation(root, Get(old(Now()), SrcIp, e.src), e.hour)
      ensures Now() == Touch(old(Now()), SrcIp, e.src, e.hour) && Shaped(Now())
    {
      sigma := Deviation(root, if (SrcIp, e.src) in baselines then baselines[(SrcIp, e.src)] else EMPTY, e.hour);
      UpdateBaseline(SrcIp, e.src, e.hour);
    }

    method AnalyzeEvent(root: real -> real, e: Event) returns (r: Report)
      requires Shaped(Now())
      modifies this
      ensures (Now(), r) == Analyze(root, old(Now()), e)
    {
      CountEvent(e);
      var rarity := Rarity(State(baselines, hourly, kinds), e.kind);
      var sigma := 0.0;
      if e.src != "" {
        sigma := CheckSource(root, e);
      }
      if e.dst != "" {
        UpdateBaseline(DstIp, e.dst, e.hour);
      }
      UpdateBaseline(EventType, e.kind, e.hour);
      r := Judge(sigma, rarity, Temporal(e.hour), SeverityWeight(e.severity));
    }
  }
}
