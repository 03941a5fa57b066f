/** The audit circuit breaker: two trend lists of at most 100 entries, and a trip decided on the last ten. */
module CircuitBreaker {
  import opened Common

  const TREND_MAX: nat := 100
  const RECENT: nat := 10

  datatype Config = Config(maxRisk: real, minEvidence: real, badAudits: int, warmup: int, cooldown: real)

  datatype Audit = Audit(risk: real, evidence: real)

  /** `trippedAt` is None while the breaker is closed. `audits` also counts those without a verifiable claim. */
  datatype State = State(trippedAt: Option<real>, risks: seq<real>, evidence: seq<real>, audits: nat)

  const INITIAL: State := State(None, [], [], 0)

  datatype Op = Record(audit: Audit, now: real) | RecordNa | Reset

  function Sum(s: seq<real>): real { if s == [] then 0.0 else Sum(s[..|s| - 1]) + s[|s| - 1] }

  function Mean(s: seq<real>): real
    requires s != []
  {
    Sum(s) / |s| as real
  }

  predicate IsBad(risk: real, evidence: real) { risk > 0.4 || evidence < 0.5 }

  function CountBad(risks: seq<real>, evidence: seq<real>): nat
    requires |risks| == |evidence|
  {
    if risks == [] then 0
    else
      var n := |risks| - 1;
      CountBad(risks[..n], evidence[..n]) + (if IsBad(risks[n], evidence[n]) then 1 else 0)
  }

  /** The three trip conditions over a stretch of audits. */
  predicate Alarming(risks: seq<real>, evidence: seq<real>, c: Config)
    requires |risks| == |evidence|
  {
    risks != [] &&
    (Mean(risks) > c.maxRisk || Mean(evidence) < c.minEvidence || CountBad(risks, evidence) >= c.badAudits)
  }

  predicate BadAt(risks: seq<real>, evidence: seq<real>, i: int) {
    0 <= i < |risks| && i < |evidence| && (risks[i] > 0.4 || evidence[i] < 0.5)
  }

  function BadPositions(risks: seq<real>, evidence: seq<real>): set<int> {
    set i | 0 <= i < |risks| && BadAt(risks, evidence, i)
  }

  lemma {:induction false} BadIs(risks: seq<real>, evidence: seq<real>)
    requires |risks| == |evidence|
    ensures CountBad(risks, evidence) == |BadPositions(risks, evidence)|
  {
    var all := BadPositions(risks, evidence);
    if risks != [] {
      var n := |risks| - 1;
      BadIs(risks[..n], evidence[..n]);
      var before := BadPositions(risks[..n], evidence[..n]);
      assert all == if BadAt(risks, evidence, n) then before + {n} else before;
    } else {
      assert all == {};
    }
  }

  lemma {:induction false} SumOfBoth(a: seq<real>, b: seq<real>)
    ensures Sum(a + b) == Sum(a) + Sum(b)
  {
    if b == [] {
      assert a + b == a;
    } else {
      assert (a + b)[..|a + b| - 1] == a + b[..|b| - 1];
      SumOfBoth(a, b[..|b| - 1]);
    }
  }

  /** The values add up to more, or to less, than that many times the limit. */
  predicate Above(s: seq<real>, limit: real) { Sum(s) > limit * |s| as real }

  predicate Below(s: seq<real>, limit: real) { Sum(s) < limit * |s| as real }

  lemma AlarmingByMeans(risks: seq<real>, evidence: seq<real>, c: Config)
    requires |risks| == |evidence| > 0
    ensures Alarming(risks, evidence, c) <==>
            Mean(risks) > c.maxRisk || Mean(evidence) < c.minEvidence || CountBad(risks, evidence) >= c.badAudits
  {}

  /** A stretch alarms when its mean risk is over or its mean evidence under the limit, or enough of its audits are bad
      by themselves. */
  lemma AlarmingIff(risks: seq<real>, evidence: seq<real>, c: Config)
    requires |risks| == |evidence| > 0
    ensures Alarming(risks, evidence, c) <==>
            || Above(risks, c.maxRisk)
            || Below(evidence, c.minEvidence)
            || |BadPositions(risks, evidence)| >= c.badAudits
  {
    AlarmingByMeans(risks, evidence, c);
    BadIs(risks, evidence);
    MeanIs(risks, c.maxRisk);
    MeanIs(evidence, c.minEvidence);
  }

  lemma MeanIs(s: seq<real>, limit: real)
    requires s != []
    ensures Mean(s) > limit <==> Above(s, limit)
    ensures Mean(s) < limit <==> Below(s, limit)
  {
    MeanAgainst(Sum(s), |s|, limit);
  }

  lemma MeanAgainst(sum: real, n: nat, limit: real)
    requires n > 0
    ensures sum / n as real > limit <==> sum > limit * n as real
    ensures sum / n as real < limit <==> sum < limit * n as real
  {
    var q := sum / n as real;
    assert q * n as real == sum;
    if q > limit {
      assert (q - limit) * n as real > 0.0;
    } else if q < limit {
      assert (limit - q) * n as real > 0.0;
    }
  }

  ghost predicate Shaped(s: State) { |s.risks| == |s.evidence| <= TREND_MAX }

  /** A tripped breaker is only ever released by a check; the audit that releases it is not judged. */
  function Tripping(s: State, now: real, c: Config): Option<real>
    requires Shaped(s)
  {
    if s.trippedAt.Some? then
      if now - s.trippedAt.value > c.cooldown then None else s.trippedAt
    else if s.audits >= c.warmup && Alarming(LastN(s.risks, RECENT), LastN(s.evidence, RECENT), c) then Some(now)
    else None
  }

  function CheckTrip(s: State, now: real, c: Config): State
    requires Shaped(s)
  {
    s.(trippedAt := Tripping(s, now, c))
  }

  function Recorded(s: State, a: Audit): State {
    State(s.trippedAt, LastN(s.risks + [a.risk], TREND_MAX), LastN(s.evidence + [a.evidence], TREND_MAX), s.audits + 1)
  }

  function Apply(s: State, op: Op, c: Config): (r: State)
    requires Shaped(s)
    ensures Shaped(r)
  {
    match op
    case Record(a, now) => CheckTrip(Recorded(s, a), now, c)
    case RecordNa => s.(audits := s.audits + 1)
    case Reset => s.(trippedAt := None)
  }

  function Run(ops: seq<Op>, c: Config): (s: State)
    ensures Shaped(s)
  {
    if ops == [] then INITIAL else Apply(Run(ops[..|ops| - 1], c), ops[|ops| - 1], c)
  }

  // ---------- the full history ----------

  function Risks(ops: seq<Op>): seq<real> {
    if ops == [] then []
    else Risks(ops[..|ops| - 1]) + (if ops[|ops| - 1].Record? then [ops[|ops| - 1].audit.risk] else [])
  }

  function Evidence(ops: seq<Op>): (r: seq<real>)
    ensures |r| == |Risks(ops)|
  {
    if ops == [] then []
    else Evidence(ops[..|ops| - 1]) + (if ops[|ops| - 1].Record? then [ops[|ops| - 1].audit.evidence] else [])
  }

  function Audits(ops: seq<Op>): nat {
    if ops == [] then 0 else Audits(ops[..|ops| - 1]) + (if ops[|ops| - 1].Reset? then 0 else 1)
  }

  /** The lists are the last 100 of everything recorded; the counter counts every audit, verifiable or not. */
  lemma {:induction false} TrendsAreRecent(ops: seq<Op>, c: Config)
    ensures Run(ops, c).risks == LastN(Risks(ops), TREND_MAX) && Run(ops, c).evidence == LastN(Evidence(ops), TREND_MAX)
    ensures Run(ops, c).audits == Audits(ops)
  {
    if ops != [] {
      TrendsAreRecent(ops[..|ops| - 1], c);
      var s, op := Run(ops[..|ops| - 1], c), ops[|ops| - 1];
      if op.Record? {
        TrendAppend(Risks(ops[..|ops| - 1]), s.risks, op.audit.risk);
        TrendAppend(Evidence(ops[..|ops| - 1]), s.evidence, op.audit.evidence);
      }
    }
  }

  lemma TrendAppend(all: seq<real>, trend: seq<real>, x: real)
    requires trend == LastN(all, TREND_MAX)
    ensures LastN(trend + [x], TREND_MAX) == LastN(all + [x], TREND_MAX)
  {
    LastNAppend(all, [x], TREND_MAX);
  }

  lemma LastOfLast<T>(s: seq<T>, m: nat, n: nat)
    requires m <= n
    ensures LastN(LastN(s, n), m) == LastN(s, m)
  {}

  /** A closed breaker trips on an audit exactly when warm-up is over and the last ten recorded audits of the whole
      history are alarming: the cut at 100 is invisible. */
  lemma TripsIff(ops: seq<Op>, a: Audit, now: real, c: Config)
    requires Run(ops, c).trippedAt == None
    ensures var all := ops + [Record(a, now)];
            Run(all, c).trippedAt == if Audits(all) >= c.warmup
                                        && Alarming(LastN(Risks(all), RECENT), LastN(Evidence(all), RECENT), c)
                                     then Some(now) else None
  {
    RunRecord(ops, a, now, c);
    RecentAgrees(ops, a, now, c);
    var all := ops + [Record(a, now)];
    CheckDecides(Recorded(Run(ops, c), a), now, c, LastN(Risks(all), RECENT), LastN(Evidence(all), RECENT));
  }

  lemma RecentAgrees(ops: seq<Op>, a: Audit, now: real, c: Config)
    ensures var all, s := ops + [Record(a, now)], Recorded(Run(ops, c), a);
            && s.audits == Audits(all)
            && LastN(s.risks, RECENT) == LastN(Risks(all), RECENT)
            && LastN(s.evidence, RECENT) == LastN(Evidence(all), RECENT)
  {
    TrendsAreRecent(ops, c);
    RecordHistory(ops, a, now);
    TrendAppend(Risks(ops), Run(ops, c).risks, a.risk);
    TrendAppend(Evidence(ops), Run(ops, c).evidence, a.evidence);
    LastOfLast(Risks(ops) + [a.risk], RECENT, TREND_MAX);
    LastOfLast(Evidence(ops) + [a.evidence], RECENT, TREND_MAX);
  }

  lemma RunRecord(ops: seq<Op>, a: Audit, now: real, c: Config)
    ensures Run(ops + [Record(a, now)], c) == CheckTrip(Recorded(Run(ops, c), a), now, c)
  {
    assert (ops + [Record(a, now)])[..|ops|] == ops;
  }

  lemma CheckDecides(s: State, now: real, c: Config, r: seq<real>, e: seq<real>)
    requires Shaped(s) && s.trippedAt == None && r == LastN(s.risks, RECENT) && e == LastN(s.evidence, RECENT)
    ensures CheckTrip(s, now, c).trippedAt == if s.audits >= c.warmup && Alarming(r, e, c) then Some(now) else None
  {}

  /** Nothing but a recorded audit trips the breaker, and none does before warm-up is over. */
  lemma TripNeedsRecord(ops: seq<Op>, op: Op, c: Config)
    requires Run(ops, c).trippedAt == None && Run(ops + [op], c).trippedAt.Some?
    ensures op.Record? && Audits(ops + [op]) >= c.warmup
  {
    assert (ops + [op])[..|ops|] == ops;
    TrendsAreRecent(ops + [op], c);
  }

  function From(s: State, ops: seq<Op>, c: Config): (r: State)
    requires Shaped(s)
    ensures Shaped(r)
  {
    if ops == [] then s else Apply(From(s, ops[..|ops| - 1], c), ops[|ops| - 1], c)
  }

  /** A tripped breaker is released by a reset, or by an audit more than the cooldown after the trip, and by nothing
      else. */
  lemma ReleasedIff(s: State, op: Op, c: Config)
    requires Shaped(s) && s.trippedAt.Some?
    ensures Apply(s, op, c).trippedAt == None <==>
            op.Reset? || (op.Record? && op.now - s.trippedAt.value > c.cooldown)
    ensures Apply(s, op, c).trippedAt.Some? ==> Apply(s, op, c).trippedAt == s.trippedAt
  {}

  /** A tripped breaker stays tripped, since the same moment, until a reset or an audit after the cooldown. */
  lemma {:induction false} StaysTripped(s: State, ops: seq<Op>, c: Config)
    requires Shaped(s) && s.trippedAt.Some?
    requires forall i :: 0 <= i < |ops| ==> ops[i] != Reset
    requires forall i :: 0 <= i < |ops| && ops[i].Record? ==> ops[i].now - s.trippedAt.value <= c.cooldown
    ensures From(s, ops, c).trippedAt == s.trippedAt
  {
    if ops != [] { StaysTripped(s, ops[..|ops| - 1], c); }
  }

  // ---------- what the names promise and the code does not ----------

  function NoClaims(n: nat): (ops: seq<Op>)
    ensures |ops| == n && forall i :: 0 <= i < n ==> ops[i] == RecordNa
  {
    seq(n, _ => RecordNa)
  }

  lemma {:induction false} NoClaimsRun(n: nat, c: Config)
    ensures Run(NoClaims(n), c) == State(None, [], [], n) && Risks(NoClaims(n)) == [] && Audits(NoClaims(n)) == n
  {
    if n > 0 {
      NoClaimsRun(n - 1, c);
      assert NoClaims(n)[..n - 1] == NoClaims(n - 1);
    } else {
      assert NoClaims(0) == [];
    }
  }

  /** Audits without a claim shorten the warm-up: after enough of them, a first risky audit trips at once, and without
      them it does not. */
  lemma WarmupCountsNoClaims(a: Audit, now: real, c: Config)
    requires c.warmup >= 2 && a.risk > c.maxRisk
    ensures Run(NoClaims(c.warmup - 1) + [Record(a, now)], c).trippedAt == Some(now)
    ensures Run([Record(a, now)], c).trippedAt == None
  {
    NoClaimsRun(c.warmup - 1, c);
    FirstRecord(NoClaims(c.warmup - 1), a, now, c);
    NoClaimsRun(0, c);
    FirstRecord([], a, now, c);
    assert [] + [Record(a, now)] == [Record(a, now)];
  }

  lemma FirstRecord(ops: seq<Op>, a: Audit, now: real, c: Config)
    requires Run(ops, c).trippedAt == None && Risks(ops) == [] && a.risk > c.maxRisk
    ensures Run(ops + [Record(a, now)], c).trippedAt == if Audits(ops) + 1 >= c.warmup then Some(now) else None
  {
    RecordHistory(ops, a, now);
    AlarmingOne(a, c);
    TripsIff(ops, a, now, c);
    assert [] + [a.risk] == [a.risk] && [] + [a.evidence] == [a.evidence];
  }

  lemma RecordHistory(ops: seq<Op>, a: Audit, now: real)
    ensures Risks(ops + [Record(a, now)]) == Risks(ops) + [a.risk]
    ensures Evidence(ops + [Record(a, now)]) == Evidence(ops) + [a.evidence]
    ensures Audits(ops + [Record(a, now)]) == Audits(ops) + 1
  {
    assert (ops + [Record(a, now)])[..|ops|] == ops;
  }

  lemma AlarmingOne(a: Audit, c: Config)
    requires a.risk > c.maxRisk
    ensures Alarming([a.risk], [a.evidence], c)
  {
    MeanOne(a.risk);
  }

  lemma MeanOne(x: real)
    ensures Mean([x]) == x
  {
    assert [x][..0] == [];
    assert Sum([x]) == x;
    assert x / 1.0 == x;
  }

  /** A reset clears no trend: with enough bad audits among the last nine, the next trips again, even a perfect one. */
  lemma ResetRetrips(ops: seq<Op>, now: real, c: Config)
    requires Audits(ops) + 1 >= c.warmup && |Risks(ops)| >= RECENT - 1
    requires CountBad(LastN(Risks(ops), RECENT - 1), LastN(Evidence(ops), RECENT - 1)) >= c.badAudits
    ensures Run(ops + [Reset] + [Record(Audit(0.0, 1.0), now)], c).trippedAt == Some(now)
  {
    var before := ops + [Reset];
    ResetHistory(ops, c);
    TripsIff(before, Audit(0.0, 1.0), now, c);
    RecordHistory(before, Audit(0.0, 1.0), now);
    LastPlusOne(Risks(ops), 0.0);
    LastPlusOne(Evidence(ops), 1.0);
    PerfectCounts(LastN(Risks(ops), RECENT - 1), LastN(Evidence(ops), RECENT - 1));
  }

  lemma ResetHistory(ops: seq<Op>, c: Config)
    ensures Run(ops + [Reset], c).trippedAt == None
    ensures Risks(ops + [Reset]) == Risks(ops) && Evidence(ops + [Reset]) == Evidence(ops)
    ensures Audits(ops + [Reset]) == Audits(ops)
  {
    assert (ops + [Reset])[..|ops|] == ops;
  }

  lemma LastPlusOne(s: seq<real>, x: real)
    requires |s| >= RECENT - 1
    ensures LastN(s + [x], RECENT) == LastN(s, RECENT - 1) + [x]
  {}

  lemma PerfectCounts(r: seq<real>, e: seq<real>)
    requires |r| == |e|
    ensures CountBad(r + [0.0], e + [1.0]) == CountBad(r, e)
  {
    assert (r + [0.0])[..|r|] == r && (e + [1.0])[..|e|] == e;
  }

  // ---------- the breaker itself ----------

  class Breaker {
    var config: Config
    var trippedAt: Option<real>
    var risks: seq<real>
    var evidence: seq<real>
    var audits: nat

    constructor (config: Config)
      ensures this.config == config && Now() == INITIAL
    {
      this.config := config;
      trippedAt, risks, evidence, audits := None, [], [], 0;
    }

    ghost function Now(): State
      reads this
    {
      State(trippedAt, risks, evidence, audits)
    }

    method RecordAuditResult(a: Audit, now: real)
      requires Shaped(Now())
      modifies this`trippedAt, this`risks, this`evidence, this`audits
      ensures Now() == Apply(old(Now()), Record(a, now), config)
    {
      Append(a);
      Check(now);
    }

    method Append(a: Audit)
      requires Shaped(Now())
      modifies this`risks, this`evidence, this`audits
      ensures Now() == Recorded(old(Now()), a) && Shaped(Now())
    {
      audits := audits + 1;
      risks := risks + [a.risk];
      evidence := evidence + [a.evidence];
      if |risks| > TREND_MAX {
        risks := risks[1..];
      }
      if |evidence| > TREND_MAX {
        evidence := evidence[1..];
      }
    }

    method RecordNoClaims()
      requires Shaped(Now())
      modifies this`audits
      ensures Now() == Apply(old(Now()), RecordNa, config)
    {
      audits := audits + 1;
    }

    method Check(now: real)
      requires Shaped(Now())
      modifies this`trippedAt
      ensures Now() == CheckTrip(old(Now()), now, config)
    {
      if trippedAt.Some? {
        if now - trippedAt.value > config.cooldown {
          trippedAt := None;
        }
        return;
      }
      if audits < config.warmup {
        return;
      }
      var recentRisk, recentEvidence := LastN(risks, RECENT), LastN(evidence, RECENT);
      if recentRisk == [] {
        return;
      }
      var totalRisk, totalEvidence, bad := Totals(recentRisk, recentEvidence);
      if totalRisk / |recentRisk| as real > config.maxRisk {
        trippedAt := Some(now);
      } else if totalEvidence / |recentEvidence| as real < config.minEvidence {
        trippedAt := Some(now);
      } else if bad >= config.badAudits {
        trippedAt := Some(now);
      }
    }

    static method Totals(rs: seq<real>, es: seq<real>) returns (risk: real, completeness: real, bad: nat)
      requires |rs| == |es|
      ensures risk == Sum(rs) && completeness == Sum(es) && bad == CountBad(rs, es)
    {
      risk, completeness, bad := 0.0, 0.0, 0;
      for i := 0 to |rs|
        invariant risk == Sum(rs[..i]) && completeness == Sum(es[..i]) && bad == CountBad(rs[..i], es[..i])
      {
        assert rs[..i + 1][..i] == rs[..i] && es[..i + 1][..i] == es[..i];
        risk, completeness := risk + rs[i], completeness + es[i];
        if IsBad(rs[i], es[i]) {
          bad := bad + 1;
        }
      }
      assert rs[..|rs|] == rs && es[..|es|] == es;
    }

    method ResetBreaker()
      requires Shaped(Now())
      modifies this`trippedAt
      ensures Now() == Apply(old(Now()), Reset, config)
    {
      if trippedAt == None {
        return;
      }
      trippedAt := None;
    }
  }
}
