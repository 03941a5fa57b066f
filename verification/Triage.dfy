/** Audit triage: an event's priority, tier and lane, then its admission under the budget. What the veto gates extract
    (signals and the two sets of event types) is input. */
module Triage {
  import opened Common

  datatype Tier = P0 | P1 | P2 | P3

  datatype Lane = LlmAgent | LlmSingle | LlmDeep | LlmStandard | LlmLight | ToolsOnly | RuleClose | ManualReview

  predicate UsesTemporal(lane: Lane) { lane == LlmAgent || lane == LlmDeep }

  predicate UsesLlmSingle(lane: Lane) { lane == LlmSingle || lane == LlmStandard || lane == LlmLight }

  predicate NeedsLlm(lane: Lane) { UsesTemporal(lane) || UsesLlmSingle(lane) }

  /** Agent lanes cost more than a single call, and that more than none. */
  function Cost(lane: Lane): nat { if UsesTemporal(lane) then 2 else if UsesLlmSingle(lane) then 1 else 0 }

  datatype Result = Result(priority: int, tier: Tier, lane: Lane, fused: real, skipLlm: bool, depth: string,
                           demoted: bool, strongCount: nat, skipPreAnalyze: bool)

  const VOLUMETRIC: set<string> := {"DDOS_TRAFFIC", "DDOS", "PORT_SCAN", "SYN_FLOOD", "FLOOD", "HTTP_FLOOD"}

  /** Strings in the letter case the code compares in. `hits` are the confidences of the Sigma hits, `confidence` the
      event's own (0 when it is no number). */
  datatype Log = Log(severity: string, kind: string, sigmaDetected: bool, sigmaSeverity: string, hits: seq<string>,
                     confidence: real)

  datatype Gates = Gates(highRisk: set<string>, typeSignal: set<string>)

  datatype Signals = Signals(hasSignal: bool, iocHit: bool)

  datatype Input = Input(log: Log, gates: Gates, signals: Signals, fastpathStrong: bool, asset: string,
                         skipVolumetric: bool)

  function RealMax(a: real, b: real): (m: real)
    ensures m >= a && m >= b && (m == a || m == b)
  {
    if a >= b then a else b
  }

  function RealMin(a: real, b: real): real { if a <= b then a else b }

  // ---------- fused confidence ----------

  function HitConfidence(h: string): real {
    if h == "high" then 0.85 else if h == "medium" then 0.65 else if h == "low" then 0.45 else 0.5
  }

  function MaxHit(hits: seq<string>): real {
    if hits == [] then 0.0 else RealMax(MaxHit(hits[..|hits| - 1]), HitConfidence(hits[|hits| - 1]))
  }

  predicate SigmaCritical(l: Log) { l.sigmaDetected && l.sigmaSeverity == "critical" }

  function Fused(l: Log, anomaly: real): real {
    var sigma := if SigmaCritical(l) then RealMax(MaxHit(l.hits), 0.85) else MaxHit(l.hits);
    var own := if l.confidence > 1.0 then l.confidence / 100.0 else l.confidence;
    RealMin(1.0, RealMax(RealMax(anomaly * 1.2, sigma), own))
  }

  // ---------- priority, tier and lane ----------

  function Bit(b: bool): nat { if b then 1 else 0 }

  function SeverityPoints(severity: string): int {
    if severity == "critical" then 35 else if severity == "high" then 25 else if severity == "medium" then 12 else 0
  }

  function SigmaPoints(l: Log): int { if SigmaCritical(l) then 40 else if l.sigmaDetected then 20 else 0 }

  function AnomalyPoints(anomaly: real): int {
    if anomaly >= 0.7 then 25 else if anomaly >= 0.5 then 15 else if anomaly >= 0.3 then 8 else 0
  }

  function FusedPoints(fused: real): int { if fused >= 0.85 then 15 else if fused >= 0.7 then 8 else 0 }

  function ContextPoints(x: Input): int {
    Bit(x.signals.hasSignal) * 15
      + Bit(x.log.kind in x.gates.highRisk || x.log.kind in x.gates.typeSignal) * 10
      + Bit(x.asset == "critical" || x.asset == "high") * 12
  }

  function Priority(x: Input, anomaly: real, fused: real): int {
    Max(0, Min(100, 20 + SeverityPoints(x.log.severity) + SigmaPoints(x.log) + AnomalyPoints(anomaly) + ContextPoints(x)
                    + FusedPoints(fused)))
  }

  function Strong(x: Input, fused: real): nat {
    Bit(SigmaCritical(x.log)) + Bit(fused >= 0.85) + Bit(x.log.kind in x.gates.highRisk) + Bit(x.signals.iocHit)
  }

  function DefaultLane(x: Input, anomaly: real, fused: real): (Tier, Lane, string) {
    var l := x.log;
    var volumetric := l.kind in VOLUMETRIC;
    if volumetric && x.skipVolumetric && !SigmaCritical(l) then (P2, ToolsOnly, "quick")
    else if Strong(x, fused) >= 2 then (P0, LlmAgent, "deep")
    else if !volumetric && (l.sigmaDetected || l.kind in x.gates.highRisk || l.severity == "critical")
    then (P1, LlmSingle, "quick")
    else if l.severity == "medium" || anomaly >= 0.3 || volumetric then (P2, ToolsOnly, "quick")
    else (P3, RuleClose, "quick")
  }

  predicate Demoted(x: Input, fused: real) { x.fastpathStrong && !(SigmaCritical(x.log) || fused >= 0.9) }

  function ScoreEvent(x: Input, anomaly: real): Result {
    var fused := Fused(x.log, anomaly);
    var (tier, lane, depth) := DefaultLane(x, anomaly, fused);
    var d := Demoted(x, fused);
    var tier1 := if d && (tier == P0 || tier == P1) then P2 else tier;
    var lane1 := if d then ToolsOnly else lane;
    Result(Priority(x, anomaly, fused), tier1, lane1, fused,
           lane1 == ToolsOnly || lane1 == RuleClose || lane1 == ManualReview,
           if d then "quick" else depth, d, Strong(x, fused), false)
  }

  // ---------- admission ----------

  datatype Water = Normal | Soft | Hard

  function BudgetWaterLevel(usage: real, soft: real, hard: real): Water {
    if usage >= hard then Hard else if usage >= soft then Soft else Normal
  }

  /** The copy that is adjusted leaves the count of strong signals at its default. */
  function Admit(t: Result, water: Water, inflightFull: bool): Result {
    var out := t.(strongCount := 0);
    if water == Normal && !inflightFull then out
    else if water == Soft then
      if out.tier == P3 then out.(lane := RuleClose, skipLlm := true) else out
    else if out.tier == P0 then out.(lane := LlmSingle, skipLlm := false, depth := "quick", skipPreAnalyze := true)
    else if out.tier == P1 then out.(lane := ToolsOnly, skipLlm := true, depth := "quick")
    else if inflightFull then
      out.(lane := if out.tier == P3 then RuleClose else ToolsOnly, skipLlm := true, depth := "quick")
    else out.(lane := RuleClose, skipLlm := true, depth := "quick")
  }

  // ---------- what the numbers and lanes are ----------

  /** What speaks for an event: its anomaly score times 1.2, each Sigma hit, a critical Sigma result, and its own
      confidence as a share. */
  ghost predicate Speaks(l: Log, anomaly: real, v: real) {
    || v == anomaly * 1.2
    || (exists h :: h in l.hits && v == HitConfidence(h))
    || (l.sigmaDetected && l.sigmaSeverity == "critical" && v == 0.85)
    || v == (if l.confidence > 1.0 then l.confidence / 100.0 else l.confidence)
    || v == 0.0
  }

  lemma {:induction false} MaxHitIs(hits: seq<string>)
    ensures forall h :: h in hits ==> HitConfidence(h) <= MaxHit(hits)
    ensures MaxHit(hits) == 0.0 || exists h :: h in hits && MaxHit(hits) == HitConfidence(h)
    ensures MaxHit(hits) >= 0.0
  {
    if hits != [] {
      var n := |hits| - 1;
      MaxHitIs(hits[..n]);
      assert hits == hits[..n] + [hits[n]];
    }
  }

  /** The fused confidence is the greatest of these, but at most 1. */
  lemma FusedIs(l: Log, anomaly: real)
    ensures forall v :: Speaks(l, anomaly, v) ==> RealMin(v, 1.0) <= Fused(l, anomaly)
    ensures Fused(l, anomaly) == 1.0 || (Fused(l, anomaly) < 1.0 && Speaks(l, anomaly, Fused(l, anomaly)))
  {
    MaxHitIs(l.hits);
  }

  /** A hit without a known confidence counts as a half. */
  lemma HitsAre(h: string)
    ensures HitConfidence("high") == 0.85 && HitConfidence("medium") == 0.65 && HitConfidence("low") == 0.45
    ensures h != "high" && h != "medium" && h != "low" ==> HitConfidence(h) == 0.5
  {}

  function Points(p: bool, n: int): int { if p then n else 0 }

  /** The priority: 20, and the points of each signal that is there, at most 100. */
  lemma PriorityIs(x: Input, anomaly: real)
    ensures var l, f := x.log, Fused(x.log, anomaly);
            var critical := l.sigmaDetected && l.sigmaSeverity == "critical";
            var sum := 20 + Points(l.severity == "critical", 35) + Points(l.severity == "high", 25)
                       + Points(l.severity == "medium", 12) + Points(critical, 40)
                       + Points(l.sigmaDetected && !critical, 20)
                       + Points(anomaly >= 0.7, 10) + Points(anomaly >= 0.5, 7) + Points(anomaly >= 0.3, 8)
                       + Points(x.signals.hasSignal, 15)
                       + Points(l.kind in x.gates.highRisk || l.kind in x.gates.typeSignal, 10)
                       + Points(x.asset == "critical" || x.asset == "high", 12)
                       + Points(f >= 0.85, 7) + Points(f >= 0.7, 8);
            ScoreEvent(x, anomaly).priority == (if sum > 100 then 100 else sum)
  {}

  /** Two of the four strong signals: critical Sigma, fused confidence, a high-risk type, an indicator of compromise. */
  predicate TwoStrong(x: Input, f: real) {
    var a, b, c, d := x.log.sigmaDetected && x.log.sigmaSeverity == "critical", f >= 0.85,
                      x.log.kind in x.gates.highRisk, x.signals.iocHit;
    (a && (b || c || d)) || (b && (c || d)) || (c && d)
  }

  /** Volume alone decides: the type is volumetric, skipping those is on, and no critical Sigma result speaks up. */
  predicate VolumeOnly(x: Input) {
    x.log.kind in VOLUMETRIC && x.skipVolumetric && !(x.log.sigmaDetected && x.log.sigmaSeverity == "critical")
  }

  /** The fast path has seen it, and neither a critical Sigma result nor a fused confidence of 0.9 keeps it. */
  predicate Replayed(x: Input, f: real) {
    x.fastpathStrong && !(x.log.sigmaDetected && x.log.sigmaSeverity == "critical") && f < 0.9
  }

  /** When an event is in which tier: P0 needs two strong signals, P1 one of Sigma, a high-risk type and a critical
      severity on an event that is not volumetric, P3 is without anything; a replayed event is P2 at most. */
  lemma TierIff(x: Input, anomaly: real)
    ensures var t, f, l := ScoreEvent(x, anomaly), Fused(x.log, anomaly), x.log;
            var notable := l.kind !in VOLUMETRIC
                           && (l.sigmaDetected || l.kind in x.gates.highRisk || l.severity == "critical");
            && t.fused == f && t.demoted == Replayed(x, f)
            && (t.tier == P0 <==> !VolumeOnly(x) && TwoStrong(x, f) && !Replayed(x, f))
            && (t.tier == P1 <==> !VolumeOnly(x) && !TwoStrong(x, f) && notable && !Replayed(x, f))
            && (t.tier == P3 <==> !VolumeOnly(x) && !TwoStrong(x, f) && !notable && l.kind !in VOLUMETRIC
                                  && l.severity != "medium" && anomaly < 0.3)
            && t.depth == (if t.tier == P0 then "deep" else "quick")
            && (Replayed(x, f) ==> t.lane == ToolsOnly)
            && (!Replayed(x, f) ==> t.lane == match t.tier case P0 => LlmAgent case P1 => LlmSingle
                                                           case P2 => ToolsOnly case P3 => RuleClose)
  {}

  /** What admission does to a scored event, tier by tier. */
  lemma AdmissionTable(x: Input, anomaly: real, water: Water, full: bool)
    ensures var t := ScoreEvent(x, anomaly);
            var r := Admit(t, water, full);
            var free := water == Normal && !full;
            && (t.tier == P0 ==> r.lane == (if free || water == Soft then t.lane else LlmSingle))
            && (t.tier == P1 ==> r.lane == (if free || water == Soft then t.lane else ToolsOnly))
            && (t.tier == P2 ==> r.lane == (if free || water == Soft || full then ToolsOnly else RuleClose))
            && (t.tier == P3 ==> r.lane == (if free then t.lane else RuleClose))
            && r.depth == (if free || water == Soft then t.depth else "quick")
            && r.skipPreAnalyze == (t.tier == P0 && !free && water != Soft)
  {}

  /** The budget's levels: each begins where its limit is reached, and the hard one goes first. */
  lemma WaterIs(usage: real, soft: real, hard: real)
    ensures BudgetWaterLevel(usage, soft, hard) == Hard <==> usage >= hard
    ensures BudgetWaterLevel(usage, soft, hard) == Normal <==> usage < hard && usage < soft
  {}

  // ---------- what holds of the composition ----------

  /** Every event with a detected critical Sigma result is P0 on the agent lane, and stays P0 on a model lane whatever
      the budget, the in-flight state and the fast path say. */
  lemma SigmaCriticalReachesLlm(x: Input, anomaly: real, water: Water, inflightFull: bool)
    requires SigmaCritical(x.log)
    ensures var t := ScoreEvent(x, anomaly);
            && t.tier == P0 && t.lane == LlmAgent && !t.demoted
            && Admit(t, water, inflightFull).tier == P0
            && NeedsLlm(Admit(t, water, inflightFull).lane) && !Admit(t, water, inflightFull).skipLlm
  {
    assert Fused(x.log, anomaly) >= 0.85;
  }

  /** The six shapes a scored event can have. */
  ghost predicate Scored(t: Result) {
    && (t.skipLlm <==> !NeedsLlm(t.lane))
    && match t.tier
       case P0 => t.lane == LlmAgent
       case P1 => t.lane == LlmSingle
       case P2 => t.lane == ToolsOnly
       case P3 => t.lane == RuleClose || (t.lane == ToolsOnly && t.demoted)
  }

  lemma ScoreEventShapes(x: Input, anomaly: real)
    ensures Scored(ScoreEvent(x, anomaly))
    ensures 20 <= ScoreEvent(x, anomaly).priority <= 100
  {}

  /** After admission too, `skip_llm` is set exactly on the lanes without a model call. */
  lemma SkipMatchesLane(x: Input, anomaly: real, water: Water, inflightFull: bool)
    ensures var r := Admit(ScoreEvent(x, anomaly), water, inflightFull); r.skipLlm <==> !NeedsLlm(r.lane)
  {
    ScoreEventShapes(x, anomaly);
  }

  function Rank(w: Water): nat { match w case Normal => 0 case Soft => 1 case Hard => 2 }

  /** The cost of an event never rises as the budget tightens if and only if there is room in flight or the event is
      below P1. */
  lemma CostMonotoneIff(x: Input, anomaly: real, inflightFull: bool)
    ensures var t := ScoreEvent(x, anomaly);
            (forall a, b :: Rank(a) <= Rank(b) ==>
               Cost(Admit(t, b, inflightFull).lane) <= Cost(Admit(t, a, inflightFull).lane))
              == (!inflightFull || t.tier == P2 || t.tier == P3)
  {
    var t := ScoreEvent(x, anomaly);
    ScoreEventShapes(x, anomaly);
    if inflightFull && (t.tier == P0 || t.tier == P1) {
      assert Rank(Normal) <= Rank(Soft);
      assert Cost(Admit(t, Soft, true).lane) > Cost(Admit(t, Normal, true).lane);
    }
  }

  /** So with everything in flight a P1 event is skipped on a normal budget but sent to the model on a soft one. */
  lemma FullNormalIsTighterThanSoft(x: Input, anomaly: real)
    requires ScoreEvent(x, anomaly).tier == P1
    ensures !NeedsLlm(Admit(ScoreEvent(x, anomaly), Normal, true).lane)
    ensures NeedsLlm(Admit(ScoreEvent(x, anomaly), Soft, true).lane)
  {
    ScoreEventShapes(x, anomaly);
  }

  /** Admission only ever lowers the cost, keeps the tier and priority, and is idempotent. */
  lemma AdmitLowers(x: Input, anomaly: real, water: Water, inflightFull: bool)
    ensures var t := ScoreEvent(x, anomaly);
            var r := Admit(t, water, inflightFull);
            && Cost(r.lane) <= Cost(t.lane) && r.tier == t.tier && r.priority == t.priority && r.strongCount == 0
            && Admit(r, water, inflightFull) == r
  {
    ScoreEventShapes(x, anomaly);
  }

  function Urgency(t: Tier): nat { match t case P0 => 3 case P1 => 2 case P2 => 1 case P3 => 0 }

  lemma FusedMonotone(l: Log, a: real, b: real)
    requires a <= b
    ensures Fused(l, a) <= Fused(l, b)
  {}

  /** With the extracted signals held fixed, a higher anomaly score never lowers priority, tier or model cost. */
  lemma AnomalyMonotone(x: Input, a: real, b: real)
    requires a <= b
    ensures ScoreEvent(x, a).priority <= ScoreEvent(x, b).priority
    ensures Urgency(ScoreEvent(x, a).tier) <= Urgency(ScoreEvent(x, b).tier)
    ensures Cost(ScoreEvent(x, a).lane) <= Cost(ScoreEvent(x, b).lane)
  {
    FusedMonotone(x.log, a, b);
    LaneMonotone(x, a, b, Fused(x.log, a), Fused(x.log, b));
  }

  lemma LaneMonotone(x: Input, a: real, b: real, f: real, g: real)
    requires a <= b && f <= g
    ensures Priority(x, a, f) <= Priority(x, b, g)
    ensures Urgency(DefaultLane(x, a, f).0) <= Urgency(DefaultLane(x, b, g).0)
    ensures Cost(DefaultLane(x, a, f).1) <= Cost(DefaultLane(x, b, g).1)
    ensures Demoted(x, g) ==> Demoted(x, f)
  {}

  // ---------- the code as it runs ----------

  method FusedConfidence(l: Log, anomaly: real) returns (f: real)
    ensures f == Fused(l, anomaly)
  {
    var sigma := 0.0;
    for i := 0 to |l.hits|
      invariant sigma == MaxHit(l.hits[..i])
    {
      assert l.hits[..i + 1][..i] == l.hits[..i];
      sigma := RealMax(sigma, HitConfidence(l.hits[i]));
    }
    assert l.hits[..|l.hits|] == l.hits;
    if SigmaCritical(l) {
      sigma := RealMax(sigma, 0.85);
    }
    var own := l.confidence;
    if own > 1.0 {
      own := own / 100.0;
    }
    f := RealMin(1.0, RealMax(RealMax(anomaly * 1.2, sigma), own));
  }

  /** Points added one signal after another, then the strong signals, the lane, and the fast-path demotion. */
  method ScoreLog(x: Input, anomaly: real) returns (r: Result)
    ensures r == ScoreEvent(x, anomaly)
  {
    var l := x.log;
    var fused := FusedConfidence(l, anomaly);
    var priority := AddPoints(x, anomaly, fused);
    var sigmaCritical := SigmaCritical(l);
    var volumetric, highRisk := l.kind in VOLUMETRIC, l.kind in x.gates.highRisk;
    var strong: nat := 0;
    if sigmaCritical { strong := strong + 1; }
    if fused >= 0.85 { strong := strong + 1; }
    if highRisk { strong := strong + 1; }
    if x.signals.iocHit { strong := strong + 1; }
    var tier, lane, depth := P3, RuleClose, "quick";
    if volumetric && x.skipVolumetric && !sigmaCritical {
      tier, lane := P2, ToolsOnly;
    } else if strong >= 2 {
      tier, lane, depth := P0, LlmAgent, "deep";
    } else if !volumetric && (l.sigmaDetected || highRisk || l.severity == "critical") {
      tier, lane := P1, LlmSingle;
    } else if l.severity == "medium" || anomaly >= 0.3 || volumetric {
      tier, lane := P2, ToolsOnly;
    }
    var demoted := false;
    if x.fastpathStrong && !(sigmaCritical || fused >= 0.9) {
      lane, depth, demoted := ToolsOnly, "quick", true;
      if tier == P0 || tier == P1 { tier := P2; }
    }
    var skip := lane == ToolsOnly || lane == RuleClose || lane == ManualReview;
    r := Result(priority, tier, lane, fused, skip, depth, demoted, strong, false);
  }

  method AddPoints(x: Input, anomaly: real, fused: real) returns (priority: int)
    ensures priority == Priority(x, anomaly, fused)
  {
    var l := x.log;
    priority := 20;
    if l.severity == "critical" { priority := priority + 35; }
    else if l.severity == "high" { priority := priority + 25; }
    else if l.severity == "medium" { priority := priority + 12; }
    assert priority == 20 + SeverityPoints(l.severity);
    if SigmaCritical(l) { priority := priority + 40; }
    else if l.sigmaDetected { priority := priority + 20; }
    assert priority == 20 + SeverityPoints(l.severity) + SigmaPoints(l);
    if anomaly >= 0.7 { priority := priority + 25; }
    else if anomaly >= 0.5 { priority := priority + 15; }
    else if anomaly >= 0.3 { priority := priority + 8; }
    assert priority == 20 + SeverityPoints(l.severity) + SigmaPoints(l) + AnomalyPoints(anomaly);
    var context := 0;
    if x.signals.hasSignal { context := context + 15; }
    if l.kind in x.gates.highRisk || l.kind in x.gates.typeSignal { context := context + 10; }
    if x.asset == "critical" || x.asset == "high" { context := context + 12; }
    priority := priority + context;
    if fused >= 0.85 { priority := priority + 15; }
    else if fused >= 0.7 { priority := priority + 8; }
    priority := Max(0, Min(100, priority));
  }

  method AdmitEvent(t: Result, usage: real, overBudget: bool, soft: real, hard: real, inflightFull: bool)
      returns (out: Result)
    ensures out == Admit(t, if overBudget then Hard else BudgetWaterLevel(usage, soft, hard), inflightFull)
  {
    var water := if overBudget then Hard else BudgetWaterLevel(usage, soft, hard);
    out := t.(strongCount := 0);
    if water == Normal && !inflightFull {
      return;
    }
    if water == Soft {
      if out.tier == P3 {
        out := out.(lane := RuleClose, skipLlm := true);
      }
      return;
    }
    if out.tier == P0 {
      out := out.(lane := LlmSingle, skipLlm := false, depth := "quick", skipPreAnalyze := true);
      return;
    }
    if out.tier == P1 {
      out := out.(lane := ToolsOnly, skipLlm := true, depth := "quick");
      return;
    }
    out := out.(lane := RuleClose, skipLlm := true, depth := "quick");
    if inflightFull {
      out := out.(lane := if out.tier == P3 then RuleClose else ToolsOnly, skipLlm := true);
    }
  }
}
